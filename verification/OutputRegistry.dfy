/** The planner's registry of outputs: which destinations a plan turns into files and which
    into directories, with the ancestors of both. */
module OutputRegistries {
  import opened Items
  import opened Sequences

  /** A path's parent, as its text gives it: shorter, or the path itself at a root. */
  type Parent = Path -> Path

  ghost predicate Shrinks(parent: Parent) { forall p :: parent(p) != p ==> |parent(p)| < |p| }

  predicate Top(parent: Parent, p: Path) { parent(p) == "" || parent(p) == p }

  /** A path that ends in a separator: its parent names the same directory. */
  predicate Trailing(k: Keys, parent: Parent, p: Path) {
    p != "" && !Top(parent, p) && k.key(p) != [] && k.key(parent(p)) == k.key(p)
  }

  /** How keys follow the text: below its top a path has one component more than its parent,
      unless it ends in a separator, which a parent never does. */
  ghost predicate Regular(k: Keys, parent: Parent) {
    && Shrinks(parent)
    && (forall p :: !Trailing(k, parent, parent(p)))
    && forall p :: k.key(p) != [] && p != "" && !Trailing(k, parent, p) && !Top(parent, p) ==>
         |k.key(p)| >= 2 && k.key(parent(p)) == Front(k.key(p))
  }

  /** The length of the shortest key that walking up a path's text reaches: 1 for an absolute
      path, more for a relative one, or one that ends in a separator. */
  ghost function End(k: Keys, parent: Parent, p: Path): nat
    requires Regular(k, parent)
    decreases |p|
  {
    if p == "" || Top(parent, p) || Trailing(k, parent, p) then |k.key(p)| else End(k, parent, parent(p))
  }

  lemma {:induction false} EndWithin(k: Keys, parent: Parent, p: Path)
    requires Regular(k, parent) && k.key(p) != []
    ensures End(k, parent, p) <= |k.key(p)|
    decreases |p|
  {
    if p != "" && !Top(parent, p) && !Trailing(k, parent, p) { EndWithin(k, parent, parent(p)); }
  }

  /** A key and its ancestors, down to a number of components. */
  function Chain(key: Key, floor: nat): set<Key>
    requires floor >= 1
  {
    set i | floor <= i <= |key| :: key[..i]
  }

  lemma ChainHas(key: Key, floor: nat, x: Key)
    requires floor >= 1
    ensures x in Chain(key, floor) <==> |x| >= floor && x <= key
  {
    if |x| >= floor && x <= key { assert x == key[..|x|]; }
  }

  lemma ChainFront(key: Key, floor: nat)
    requires floor >= 1 && key != []
    ensures Chain(key, floor) == Chain(Front(key), floor) + if |key| >= floor then {key} else {}
    ensures key !in Chain(Front(key), floor)
  {
    forall x
      ensures x in Chain(key, floor) <==> x in Chain(Front(key), floor) || (x == key && |key| >= floor)
    {
      ChainHas(key, floor, x);
      ChainHas(Front(key), floor, x);
      if x <= key && x != key { assert x == Front(key)[..|x|]; }
    }
    ChainHas(Front(key), floor, key);
  }

  lemma ChainWithin(whole: Key, key: Key, floor: nat)
    requires floor >= 1 && key <= whole
    ensures Chain(key, floor) <= Chain(whole, floor)
  {
    forall x | x in Chain(key, floor)
      ensures x in Chain(whole, floor)
    {
      ChainHas(key, floor, x);
      ChainHas(whole, floor, x);
    }
  }

  datatype Outputs = Outputs(files: set<Key>, directories: set<Key>)

  /** The registered directories that lie no higher than the floor. */
  function Low(directories: set<Key>, floor: nat): set<Key> { set d | d in directories && |d| >= floor }

  /** Down to the floor directories are closed under parent, every file lies in one, and
      none is both. */
  predicate Closed(o: Outputs, floor: nat) {
    && (forall d :: d in o.directories ==> d != [] && (|d| > floor ==> Front(d) in o.directories))
    && (forall f :: f in o.files ==> |f| > floor && f !in o.directories && Front(f) in o.directories)
  }

  /** A registered directory's whole chain is registered. */
  lemma {:induction false} ChainRegistered(o: Outputs, d: Key, floor: nat)
    requires floor >= 1 && Closed(o, floor) && d in o.directories
    ensures Chain(d, floor) <= o.directories
    decreases |d|
  {
    ChainFront(d, floor);
    if |d| > floor { ChainRegistered(o, Front(d), floor); } else { assert Chain(Front(d), floor) == {}; }
  }

  lemma AncestorRegistered(o: Outputs, x: Key, y: Key, floor: nat)
    requires floor >= 1 && Closed(o, floor) && |x| >= floor && x <= y && (y in o.directories || (y in o.files && x != y))
    ensures x in o.directories
  {
    var d := if y in o.directories then y else Front(y);
    assert x <= d;
    ChainHas(d, floor, x);
    ChainRegistered(o, d, floor);
  }

  /** No file lies above another output. */
  lemma NoFileAbove(o: Outputs, f: Key, other: Key, floor: nat)
    requires floor >= 1 && Closed(o, floor) && f in o.files && (other in o.files || other in o.directories)
    ensures !(f < other)
  {
    if f < other { AncestorRegistered(o, f, other, floor); }
  }

  // ---- registering ----

  /** A directory can be registered when no file lies on its chain. */
  predicate Free(o: Outputs, key: Key, floor: nat)
    requires floor >= 1
  {
    key != [] && forall x :: x in Chain(key, floor) ==> x !in o.files
  }

  /** A file can be registered when its place is free and nothing above it is a file. */
  predicate Vacant(o: Outputs, key: Key, floor: nat)
    requires floor >= 1
  {
    Free(o, key, floor) && key !in o.directories
  }

  /** A directory and what lies above it has been added; the files are the same. */
  ghost predicate AddsDirectory(o: Outputs, t: Outputs, key: Key, floor: nat)
    requires floor >= 1
  {
    && t.files == o.files && o.directories <= t.directories
    && Low(t.directories, floor) == Low(o.directories, floor) + Chain(key, floor)
  }

  ghost predicate AddsFile(o: Outputs, t: Outputs, key: Key, floor: nat)
    requires floor >= 1
  {
    && key != [] && t.files == o.files + {key} && o.directories <= t.directories
    && Low(t.directories, floor) == Low(o.directories, floor) + Chain(Front(key), floor)
  }

  lemma DirectoryCloses(o: Outputs, t: Outputs, key: Key, floor: nat)
    requires floor >= 1 && Closed(o, floor) && Free(o, key, floor) && AddsDirectory(o, t, key, floor)
    requires forall d :: d in t.directories ==> d != []
    ensures Closed(t, floor)
  {
    forall d | d in t.directories && |d| >= floor
      ensures d !in t.files && (|d| > floor ==> Front(d) in t.directories)
    {
      assert d in Low(t.directories, floor);
      ChainHas(key, floor, d);
      if d !in o.directories && |d| > floor {
        ChainHas(key, floor, Front(d));
        assert Front(d) in Low(t.directories, floor);
      }
    }
    forall f | f in t.files
      ensures |f| > floor && f !in t.directories && Front(f) in t.directories
    {
    }
  }

  lemma FileCloses(o: Outputs, t: Outputs, key: Key, floor: nat)
    requires floor >= 1 && |key| > floor && Closed(o, floor) && Vacant(o, key, floor) && AddsFile(o, t, key, floor)
    requires forall d :: d in t.directories ==> d != []
    ensures Closed(t, floor)
  {
    var u := t.(files := o.files);
    ChainFront(key, floor);
    assert Free(o, Front(key), floor);
    DirectoryCloses(o, u, Front(key), floor);
    ChainHas(Front(key), floor, Front(key));
    assert Front(key) in Low(t.directories, floor);
    assert key in t.directories <==> key in Low(t.directories, floor);
  }

  /** How far the walk up from a directory has come, with `key` next: what lies between the
      whole key and it is registered, and nothing else that is no higher than the floor. */
  ghost predicate Walked(o: Outputs, t: Outputs, whole: Key, key: Key, floor: nat)
    requires floor >= 1
  {
    && key <= whole && t.files == o.files && o.directories <= t.directories && (forall d :: d in t.directories ==> d != [])
    && (forall d :: d in t.directories && d !in o.directories ==>
          |d| < floor || d in Chain(whole, floor) - Chain(key, floor) || d == key)
    && Low(o.directories, floor) + (Chain(whole, floor) - Chain(key, floor)) <= Low(t.directories, floor)
    && (forall x :: x in Chain(whole, floor) - Chain(key, floor) ==> x !in o.files)
    && (key in t.directories && key !in o.directories ==> |key| <= floor && key !in o.files)
  }

  /** One directory up; a path that ended in a separator stays where it is. */
  lemma WalkUp(o: Outputs, t: Outputs, whole: Key, key: Key, floor: nat)
    requires floor >= 1 && Closed(o, floor) && Walked(o, t, whole, key, floor)
    requires key != [] && key !in o.files && key !in t.directories
    ensures var u := t.(directories := t.directories + {key});
      Walked(o, u, whole, Front(key), floor) && (|key| <= floor ==> Walked(o, u, whole, key, floor))
  {
    var u := t.(directories := t.directories + {key});
    ChainFront(key, floor);
    ChainHas(whole, floor, key);
    ChainHas(key, floor, Front(key));
    assert Chain(whole, floor) - Chain(Front(key), floor) <= (Chain(whole, floor) - Chain(key, floor)) + {key};
    assert Chain(key, floor) <= Chain(Front(key), floor) + {key};
    assert Low(u.directories, floor) == Low(t.directories, floor) + if |key| >= floor then {key} else {};
    assert Front(key) in t.directories && Front(key) !in o.directories ==> |Front(key)| < floor;
  }

  class OutputRegistry {
    const k: Keys
    const parent: Parent
    var files: set<Key>
    var directories: set<Key>
    // Where the chains of all registered paths are known to have ended.
    ghost const floor: nat

    ghost function Value(): Outputs
      reads this
    {
      Outputs(files, directories)
    }

    ghost predicate Valid()
      reads this
    {
      floor >= 1 && Regular(k, parent) && Closed(Value(), floor)
    }

    constructor (keys: Keys, up: Parent, ghost bottom: nat)
      requires Regular(keys, up) && bottom >= 1
      ensures Valid() && k == keys && parent == up && floor == bottom && Value() == Outputs({}, {})
    {
      k, parent, floor := keys, up, bottom;
      files, directories := {}, {};
    }

    /** Register a directory and its ancestors; false where the code throws. Stopping at the
        first known ancestor comes to the same as walking up the whole chain. */
    method AddDirectory(path: Path) returns (ok: bool)
      requires Valid() && path != "" && End(k, parent, path) <= floor
      modifies this`directories
      ensures ok <==> Free(old(Value()), k.key(path), floor)
      ensures ok ==> Valid() && AddsDirectory(old(Value()), Value(), k.key(path), floor)
    {
      ghost var before, whole := Value(), k.key(path);
      var cursor := path;
      assert Chain(whole, floor) - Chain(whole, floor) == {};
      while cursor != ""
        invariant cursor != "" && (k.key(cursor) == [] ==> whole == []) && End(k, parent, cursor) <= floor
        invariant Walked(before, Value(), whole, k.key(cursor), floor)
        decreases |cursor|
      {
        var key := k.key(cursor);
        if key == [] { return false; }
        ChainFront(key, floor);
        ChainWithin(whole, key, floor);
        if key in files { return false; }
        if key in directories {
          if key in before.directories { ChainRegistered(before, key, floor); } else { ShortChain(key, floor); }
          Stopped(before, Value(), whole, key, floor);
          return true;
        }
        WalkUp(before, Value(), whole, key, floor);
        directories := directories + {key};
        var above := parent(cursor);
        if above == "" || above == cursor {
          ShortChain(key, floor);
          Stopped(before, Value(), whole, key, floor);
          return true;
        }
        if Trailing(k, parent, cursor) { EndWithin(k, parent, above); }
        cursor := above;
      }
      assert false;
    }

    /** Register a file and the directories above it; false where the code throws. */
    method AddFile(path: Path) returns (ok: bool)
      requires Valid() && path != "" && !Top(parent, path) && End(k, parent, path) <= floor
      requires k.key(path) != [] ==> |k.key(path)| > floor
      modifies this
      ensures ok <==> Vacant(old(Value()), k.key(path), floor)
      ensures ok ==> Valid() && AddsFile(old(Value()), Value(), k.key(path), floor)
    {
      ghost var before := Value();
      ok := AddDirectory(parent(path));
      var key := k.key(path);
      if key != [] { ChainFront(key, floor); }
      if !ok { return; }
      if key == [] { return false; }
      assert key in directories <==> key in Low(directories, floor);
      assert key in before.directories <==> key in Low(before.directories, floor);
      if key in directories || key in files { return false; }
      files := files + {key};
      FileCloses(before, Value(), key, floor);
    }
  }

  lemma ShortChain(key: Key, floor: nat)
    requires floor >= 1 && |key| <= floor
    ensures Chain(key, floor) <= {key}
  {
    forall x | x in Chain(key, floor)
      ensures x == key
    {
      ChainHas(key, floor, x);
    }
  }

  /** The walk may stop where everything further up is registered. */
  lemma Stopped(o: Outputs, t: Outputs, whole: Key, key: Key, floor: nat)
    requires floor >= 1 && Closed(o, floor) && key != [] && key !in o.files && key in t.directories
    requires Walked(o, t, whole, key, floor)
    requires Chain(key, floor) <= o.directories + {key}
    ensures Free(o, whole, floor) && AddsDirectory(o, t, whole, floor) && Closed(t, floor)
  {
    ChainFront(key, floor);
    forall x | x in Chain(whole, floor)
      ensures x !in o.files
    {
      if x in Chain(key, floor) { assert x in o.directories || x == key; }
    }
    forall d
      ensures d in Low(t.directories, floor) <==> d in Low(o.directories, floor) || d in Chain(whole, floor)
    {
      ChainHas(whole, floor, d);
      ChainHas(key, floor, d);
      ChainHas(whole, floor, key);
    }
    DirectoryCloses(o, t, whole, floor);
  }

  // ---- what a sequence of registrations comes to ----

  datatype Output = FileAt(key: Key) | DirectoryAt(key: Key)

  predicate Fits(o: Outputs, x: Output, floor: nat)
    requires floor >= 1
  {
    match x case FileAt(key) => Vacant(o, key, floor) case DirectoryAt(key) => Free(o, key, floor)
  }

  ghost predicate Adds(o: Outputs, t: Outputs, x: Output, floor: nat)
    requires floor >= 1
  {
    match x case FileAt(key) => AddsFile(o, t, key, floor) case DirectoryAt(key) => AddsDirectory(o, t, key, floor)
  }

  /** Two outputs that cannot both exist: one is a file at, or above, the other. */
  predicate Clash(a: Output, b: Output) {
    (a.FileAt? && a.key <= b.key) || (b.FileAt? && b.key <= a.key)
  }

  ghost predicate Unclashing(xs: seq<Output>) {
    forall i, j :: 0 <= i < j < |xs| ==> !Clash(xs[i], xs[j])
  }

  /** Outputs lie below the floor, as those of a job lie below its destination. */
  predicate Deep(x: Output, floor: nat) { if x.FileAt? then |x.key| > floor else |x.key| >= floor }

  /** The directories an output brings with it. */
  function Above(x: Output, floor: nat): set<Key>
    requires floor >= 1
  {
    if x.DirectoryAt? then Chain(x.key, floor) else Chain(x.key, floor) - {x.key}
  }

  /** The registry holds just the outputs registered so far and what lies above them. */
  ghost predicate Holds(o: Outputs, xs: seq<Output>, floor: nat)
    requires floor >= 1
  {
    && Closed(o, floor) && (forall x :: x in xs ==> Deep(x, floor))
    && (forall f :: f in o.files <==> FileAt(f) in xs)
    && (forall d :: d in Low(o.directories, floor) <==> exists x :: x in xs && d in Above(x, floor))
  }

  lemma AboveHas(x: Output, floor: nat, d: Key)
    requires floor >= 1
    ensures d in Above(x, floor) <==> |d| >= floor && d <= x.key && (x.FileAt? ==> d != x.key)
  {
    ChainHas(x.key, floor, d);
  }

  lemma ClashBlocks(o: Outputs, xs: seq<Output>, x: Output, y: Output, floor: nat)
    requires floor >= 1 && Holds(o, xs, floor) && Deep(x, floor) && y in xs && Clash(y, x)
    ensures !Fits(o, x, floor)
  {
    if y.FileAt? && y.key <= x.key {
      ChainHas(x.key, floor, y.key);
      assert y == FileAt(y.key);
    } else {
      AboveHas(y, floor, x.key);
      assert x.key in o.directories <==> x.key in Low(o.directories, floor);
    }
  }

  lemma NoClashFits(o: Outputs, xs: seq<Output>, x: Output, floor: nat)
    requires floor >= 1 && Holds(o, xs, floor) && Deep(x, floor) && forall y :: y in xs ==> !Clash(y, x)
    ensures Fits(o, x, floor)
  {
    forall f | f in Chain(x.key, floor)
      ensures f !in o.files
    {
      ChainHas(x.key, floor, f);
      assert Clash(FileAt(f), x);
    }
    if x.FileAt? && x.key in o.directories {
      assert x.key in Low(o.directories, floor);
      var y :| y in xs && x.key in Above(y, floor);
      AboveHas(y, floor, x.key);
    }
  }

  /** One more output fits exactly when it clashes with none registered before. */
  lemma FitsIff(o: Outputs, xs: seq<Output>, x: Output, floor: nat)
    requires floor >= 1 && Holds(o, xs, floor) && Deep(x, floor)
    ensures Fits(o, x, floor) <==> forall y :: y in xs ==> !Clash(y, x)
  {
    hide Holds, Fits, Clash;
    if forall y :: y in xs ==> !Clash(y, x) {
      NoClashFits(o, xs, x, floor);
    } else {
      var y :| y in xs && Clash(y, x);
      ClashBlocks(o, xs, x, y, floor);
    }
  }

  lemma AddsHolds(o: Outputs, t: Outputs, xs: seq<Output>, x: Output, floor: nat)
    requires floor >= 1 && Holds(o, xs, floor) && Deep(x, floor) && Fits(o, x, floor) && Adds(o, t, x, floor)
    requires forall d :: d in t.directories ==> d != []
    ensures Holds(t, xs + [x], floor)
  {
    if x.FileAt? { FileCloses(o, t, x.key, floor); } else { DirectoryCloses(o, t, x.key, floor); }
    ChainFront(x.key, floor);
    forall d
      ensures d in Low(t.directories, floor) <==> exists y :: y in xs + [x] && d in Above(y, floor)
    {
      if d in Low(t.directories, floor) {
        if d in Low(o.directories, floor) {
          var y :| y in xs && d in Above(y, floor);
          assert y in xs + [x];
        } else {
          assert x in xs + [x] && d in Above(x, floor);
        }
      }
    }
  }

  /** A run of the registry: each output in turn is accepted and added. */
  ghost predicate Accepts(states: seq<Outputs>, xs: seq<Output>, floor: nat)
    requires floor >= 1
  {
    && |states| == |xs| + 1 && states[0] == Outputs({}, {})
    && forall i :: 0 <= i < |xs| ==> AcceptsOne(states[i], states[i + 1], xs[i], floor)
  }

  ghost predicate AcceptsOne(o: Outputs, t: Outputs, x: Output, floor: nat)
    requires floor >= 1
  {
    Fits(o, x, floor) && Adds(o, t, x, floor) && forall d :: d in t.directories ==> d != []
  }

  lemma NothingHolds(floor: nat)
    requires floor >= 1
    ensures Holds(Outputs({}, {}), [], floor)
  {
  }

  lemma {:induction false} AcceptedHolds(states: seq<Outputs>, xs: seq<Output>, n: nat, floor: nat)
    requires floor >= 1 && Accepts(states, xs, floor) && (forall x :: x in xs ==> Deep(x, floor)) && n <= |xs|
    ensures Holds(states[n], xs[..n], floor) && Unclashing(xs[..n])
    ensures n < |xs| ==> forall y :: y in xs[..n] ==> !Clash(y, xs[n])
  {
    hide Holds, Clash, Fits, Adds;
    if n > 0 {
      AcceptedHolds(states, xs, n - 1, floor);
      assert AcceptsOne(states[n - 1], states[n], xs[n - 1], floor);
      assert xs[..n] == xs[..n - 1] + [xs[n - 1]];
      AddsHolds(states[n - 1], states[n], xs[..n - 1], xs[n - 1], floor);
    }
    NothingHolds(floor);
    if n < |xs| {
      assert AcceptsOne(states[n], states[n + 1], xs[n], floor);
      FitsIff(states[n], xs[..n], xs[n], floor);
    }
  }

  /** What the registry accepts, in whatever order it comes, is a set of outputs no two of
      which clash, and it then holds exactly those; an output that clashes with one of them
      is refused, and any other is accepted. */
  lemma AcceptsUnclashing(states: seq<Outputs>, xs: seq<Output>, x: Output, floor: nat)
    requires floor >= 1 && Accepts(states, xs, floor) && (forall y :: y in xs ==> Deep(y, floor)) && Deep(x, floor)
    ensures Unclashing(xs) && Closed(states[|xs|], floor)
    ensures forall f :: f in states[|xs|].files <==> FileAt(f) in xs
    ensures Fits(states[|xs|], x, floor) <==> forall y :: y in xs ==> !Clash(y, x)
  {
    AcceptedHolds(states, xs, |xs|, floor);
    assert xs[..|xs|] == xs;
    FitsIff(states[|xs|], xs, x, floor);
  }
}
