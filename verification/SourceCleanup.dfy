/** Clearing the source tree of a finished Move: directories with no file beneath are removed,
    with a stack of pinned directories whose depth is that of the tree. */
module SourceCleanup {

  /** What a source tree holds. A barred directory is one that must not be entered. */
  datatype Node = File | Barred | Dir(kids: seq<Node>)

  /** A place in a tree: which entry to follow at each level. */
  type Place = seq<nat>

  /** A directory with nothing but such directories in it. */
  predicate Hollow(n: Node) { n.Dir? && forall i :: 0 <= i < |n.kids| ==> Hollow(n.kids[i]) }

  predicate Exists(n: Node, p: Place)
    decreases |p|
  {
    p == [] || (n.Dir? && p[0] < |n.kids| && Exists(n.kids[p[0]], p[1..]))
  }

  function At(n: Node, p: Place): Node
    requires Exists(n, p)
    decreases |p|
  {
    if p == [] then n else At(n.kids[p[0]], p[1..])
  }

  lemma {:induction false} Deeper(n: Node, p: Place, i: nat)
    requires Exists(n, p) && At(n, p).Dir? && i < |At(n, p).kids|
    ensures Exists(n, p + [i]) && At(n, p + [i]) == At(n, p).kids[i]
    decreases |p|
  {
    if p == [] {
      assert (p + [i])[1..] == [];
    } else {
      assert (p + [i])[1..] == p[1..] + [i];
      Deeper(n.kids[p[0]], p[1..], i);
    }
  }

  // ---- what a cleanup removes, and in which order ----

  /** The hollow directories of a tree, children before parents. */
  function Cleared(n: Node, at: Place): seq<Place>
    decreases n, 1
  {
    if n.Dir? then ClearedKids(n, at, 0) + Own(n, at) else []
  }

  function Own(n: Node, at: Place): seq<Place> { if Hollow(n) then [at] else [] }

  function ClearedKids(n: Node, at: Place, i: nat): seq<Place>
    requires n.Dir?
    decreases n, 0, |n.kids| - i
  {
    if i >= |n.kids| then [] else Cleared(n.kids[i], at + [i]) + ClearedKids(n, at, i + 1)
  }

  /** The places a cleanup removes are exactly those of directories with no file beneath. */
  lemma {:induction false} ClearedHas(n: Node, at: Place, p: Place)
    ensures p in Cleared(n, at) <==> at <= p && Exists(n, p[|at|..]) && Hollow(At(n, p[|at|..]))
    decreases n, 1
  {
    if n.Dir? {
      KidsHave(n, at, 0, p);
      if at <= p && p != at {
        var q := p[|at|..];
        assert p[|at| + 1..] == q[1..] && (at + [p[|at|]] <= p);
      }
      if p == at { assert p[|at|..] == []; }
    }
  }

  lemma {:induction false} KidsHave(n: Node, at: Place, i: nat, p: Place)
    requires n.Dir?
    ensures p in ClearedKids(n, at, i) <==>
      && at <= p && p != at && i <= p[|at|] < |n.kids|
      && Exists(n.kids[p[|at|]], p[|at| + 1..]) && Hollow(At(n.kids[p[|at|]], p[|at| + 1..]))
    decreases n, 0, |n.kids| - i
  {
    if i < |n.kids| {
      ClearedHas(n.kids[i], at + [i], p);
      KidsHave(n, at, i + 1, p);
      if at <= p && p != at && p[|at|] == i {
        assert at + [i] <= p;
      }
    }
  }

  // ---- the stack ----

  /** A pinned directory and the next of its entries to look at. */
  datatype Frame = Frame(at: Place, dir: Node, next: nat)

  function Kids(n: Node): seq<Node> { if n.Dir? then n.kids else [] }

  /** What a frame has still to remove, and what all frames, innermost last, have. */
  function FrameRest(f: Frame): seq<Place> {
    if f.dir.Dir? then ClearedKids(f.dir, f.at, f.next) + Own(f.dir, f.at) else []
  }

  function Rest(stack: seq<Frame>): seq<Place> {
    if stack == [] then [] else FrameRest(stack[|stack| - 1]) + Rest(stack[..|stack| - 1])
  }

  lemma RestOver(below: seq<Frame>, f: Frame)
    ensures Rest(below + [f]) == FrameRest(f) + Rest(below)
  {
    assert (below + [f])[..|below|] == below;
  }

  /** A frame stands for a directory of the tree. */
  predicate Framed(root: Node, f: Frame) {
    f.dir.Dir? && f.next <= |f.dir.kids| && Exists(root, f.at) && At(root, f.at) == f.dir
  }

  /** The entry an outer frame looked at last is the inner frame's directory. */
  predicate Within(inner: Frame, outer: Frame) { outer.next > 0 && inner.at == outer.at + [outer.next - 1] }

  /** The hollow entries a frame is done with are gone; the last one may still be open. */
  predicate Swept(f: Frame, open: bool, removed: seq<Place>) {
    forall i :: 0 <= i < Kept(f, open) && i < |Kids(f.dir)| && Hollow(Kids(f.dir)[i]) ==> f.at + [i] in removed
  }

  function Kept(f: Frame, open: bool): nat { if open && f.next > 0 then f.next - 1 else f.next }

  /** Each frame is a directory of the tree, within the one before, and swept. */
  predicate Stacked(root: Node, stack: seq<Frame>, removed: seq<Place>, open: bool)
    decreases |stack|
  {
    if stack == [] then true
    else
      var f, below := stack[|stack| - 1], stack[..|stack| - 1];
      && Framed(root, f) && Swept(f, open, removed)
      && Linked(below, f)
      && Stacked(root, below, removed, true)
  }

  ghost predicate Sweeping(root: Node, stack: seq<Frame>, removed: seq<Place>) {
    Stacked(root, stack, removed, false) && removed + Rest(stack) == Cleared(root, [])
  }

  /** A directory can be removed when nothing is left in it. */
  predicate Vacant(f: Frame, removed: seq<Place>) {
    forall i :: 0 <= i < |Kids(f.dir)| ==> Kids(f.dir)[i].Dir? && f.at + [i] in removed
  }

  /** At its end a directory is vacant exactly when no file is beneath it. */
  lemma VacantIffHollow(root: Node, f: Frame, removed: seq<Place>, rest: seq<Place>)
    requires Framed(root, f) && f.next == |f.dir.kids| && Swept(f, false, removed) && removed + rest == Cleared(root, [])
    ensures Vacant(f, removed) <==> Hollow(f.dir)
  {
    forall i | 0 <= i < |f.dir.kids| && f.at + [i] in removed
      ensures Hollow(f.dir.kids[i])
    {
      assert f.at + [i] in Cleared(root, []);
      ClearedHas(root, [], f.at + [i]);
      assert (f.at + [i])[0..] == f.at + [i];
      Deeper(root, f.at, i);
    }
  }

  /** Removing more keeps swept frames swept. */
  lemma {:induction false} StillStacked(root: Node, stack: seq<Frame>, removed: seq<Place>, more: seq<Place>, open: bool)
    requires Stacked(root, stack, removed, open)
    ensures Stacked(root, stack, removed + more, open)
    decreases |stack|
  {
    hide Framed;
    if stack != [] { StillStacked(root, stack[..|stack| - 1], removed, more, true); }
  }

  /** How a frame sits on the ones below it. */
  predicate Linked(below: seq<Frame>, f: Frame) {
    if below == [] then f.at == [] else Within(f, below[|below| - 1])
  }

  lemma StackedOver(root: Node, below: seq<Frame>, f: Frame, removed: seq<Place>, open: bool)
    ensures Stacked(root, below + [f], removed, open)
            <==> Framed(root, f) && Swept(f, open, removed) && Linked(below, f) && Stacked(root, below, removed, true)
  {
    hide Framed, Swept;
    assert (below + [f])[..|below|] == below;
  }

  /** Looking at the next entry: it is skipped, or its directory entered. */
  lemma Opens(root: Node, below: seq<Frame>, f: Frame, removed: seq<Place>)
    requires Sweeping(root, below + [f], removed) && f.next < |Kids(f.dir)|
    ensures var kid, parent := Kids(f.dir)[f.next], f.(next := f.next + 1);
      && (!kid.Dir? ==> Sweeping(root, below + [parent], removed))
      && (kid.Dir? ==> Sweeping(root, below + [parent, Frame(f.at + [f.next], kid, 0)], removed))
  {
    hide Swept, Framed, FrameRest, Rest, Stacked, Cleared, Kids;
    var kid, parent := Kids(f.dir)[f.next], f.(next := f.next + 1);
    RestOver(below, f);
    RestOver(below, parent);
    StackedOver(root, below, f, removed, false);
    FramesOpen(root, f);
    ParentSwept(f, removed);
    if kid.Dir? {
      Enters(root, below, parent, Frame(f.at + [f.next], kid, 0), removed);
      assert below + [parent] + [Frame(f.at + [f.next], kid, 0)] == below + [parent, Frame(f.at + [f.next], kid, 0)];
    } else {
      StackedOver(root, below, parent, removed, false);
    }
  }

  lemma Enters(root: Node, below: seq<Frame>, parent: Frame, inner: Frame, removed: seq<Place>)
    requires Framed(root, parent) && Framed(root, inner) && Within(inner, parent) && inner.next == 0
    requires Swept(parent, true, removed) && Linked(below, parent) && Stacked(root, below, removed, true)
    requires removed + ((FrameRest(inner) + FrameRest(parent)) + Rest(below)) == Cleared(root, [])
    ensures Sweeping(root, below + [parent] + [inner], removed)
  {
    hide Swept, Framed, FrameRest, Rest, Stacked, Cleared;
    StackedOver(root, below, parent, removed, true);
    StackedOver(root, below + [parent], inner, removed, false);
    NothingSwept(inner, removed);
    RestOver(below, parent);
    RestOver(below + [parent], inner);
    assert FrameRest(inner) + (FrameRest(parent) + Rest(below)) == (FrameRest(inner) + FrameRest(parent)) + Rest(below);
  }

  lemma FramesOpen(root: Node, f: Frame)
    requires Framed(root, f) && f.next < |Kids(f.dir)|
    ensures var kid, parent := Kids(f.dir)[f.next], f.(next := f.next + 1);
      var inner := Frame(f.at + [f.next], kid, 0);
      && Framed(root, parent) && f.dir.Dir?
      && (if kid.Dir? then Framed(root, inner) && FrameRest(f) == FrameRest(inner) + FrameRest(parent)
          else FrameRest(f) == FrameRest(parent))
  {
    hide Hollow, Own;
    Deeper(root, f.at, f.next);
    var kid, after := f.dir.kids[f.next], ClearedKids(f.dir, f.at, f.next + 1);
    if kid.Dir? {
      assert ClearedKids(f.dir, f.at, f.next) == Cleared(kid, f.at + [f.next]) + after;
    } else {
      assert Cleared(kid, f.at + [f.next]) + after == after;
    }
  }

  lemma ParentSwept(f: Frame, removed: seq<Place>)
    requires Swept(f, false, removed) && f.next < |Kids(f.dir)|
    ensures Swept(f.(next := f.next + 1), true, removed)
    ensures !Kids(f.dir)[f.next].Dir? ==> Swept(f.(next := f.next + 1), false, removed)
  {
  }

  lemma NothingSwept(f: Frame, removed: seq<Place>)
    requires f.next == 0
    ensures Swept(f, false, removed)
  {
  }

  /** Leaving a directory at its end: it is gone if it was hollow. */
  lemma Closes(root: Node, below: seq<Frame>, f: Frame, removed: seq<Place>)
    requires Sweeping(root, below + [f], removed) && f.next == |Kids(f.dir)|
    ensures Sweeping(root, below, removed + Own(f.dir, f.at))
    ensures Vacant(f, removed) <==> Hollow(f.dir)
  {
    hide Swept, Framed, FrameRest, Rest, Hollow, Vacant, Own, Cleared;
    assert (below + [f])[..|below|] == below;
    RestOver(below, f);
    FrameEnds(root, f);
    VacantIffHollow(root, f, removed, Rest(below + [f]));
    StillStacked(root, below, removed, Own(f.dir, f.at), true);
    if below != [] { OuterSwept(root, below[|below| - 1], f, removed); }
  }

  lemma FrameEnds(root: Node, f: Frame)
    requires Framed(root, f) && f.next == |Kids(f.dir)|
    ensures FrameRest(f) == Own(f.dir, f.at) && f.dir.Dir? && f.next == |f.dir.kids|
  {
    hide Own;
  }

  lemma OuterSwept(root: Node, outer: Frame, inner: Frame, removed: seq<Place>)
    requires Framed(root, outer) && Framed(root, inner) && Within(inner, outer)
    requires Swept(outer, true, removed + Own(inner.dir, inner.at))
    ensures Swept(outer, false, removed + Own(inner.dir, inner.at))
  {
    Deeper(root, outer.at, outer.next - 1);
  }

  lemma Begins(root: Node)
    requires root.Dir?
    ensures Sweeping(root, [Frame([], root, 0)], [])
  {
    RestOver([], Frame([], root, 0));
    assert [] + [Frame([], root, 0)] == [Frame([], root, 0)] && [Frame([], root, 0)][..0] == [];
    NothingSwept(Frame([], root, 0), []);
  }

  // ---- how much is left to look at ----

  function NodeWork(n: Node): nat
    decreases n, 1
  {
    if n.Dir? then KidsWork(n, 0) + 1 else 0
  }

  function KidsWork(n: Node, i: nat): nat
    requires n.Dir?
    decreases n, 0, |n.kids| - i
  {
    if i >= |n.kids| then 0 else 1 + NodeWork(n.kids[i]) + KidsWork(n, i + 1)
  }

  function FrameWork(f: Frame): nat { if f.dir.Dir? then KidsWork(f.dir, f.next) + 1 else 1 }

  function Work(stack: seq<Frame>): nat {
    if stack == [] then 0 else FrameWork(stack[|stack| - 1]) + Work(stack[..|stack| - 1])
  }

  lemma WorkOver(below: seq<Frame>, f: Frame)
    ensures Work(below + [f]) == FrameWork(f) + Work(below)
  {
    assert (below + [f])[..|below|] == below;
  }

  /** Looking at one entry, entered or not, and leaving a directory both get on. */
  lemma WorkShrinks(below: seq<Frame>, f: Frame)
    ensures Work(below) < Work(below + [f])
    ensures f.next < |Kids(f.dir)| ==>
      var kid, parent := Kids(f.dir)[f.next], f.(next := f.next + 1);
      && Work(below + [parent]) < Work(below + [f])
      && (kid.Dir? ==> Work(below + [parent, Frame(f.at + [f.next], kid, 0)]) < Work(below + [f]))
  {
    WorkOver(below, f);
    if f.next < |Kids(f.dir)| {
      var kid, parent := f.dir.kids[f.next], f.(next := f.next + 1);
      WorkOver(below, parent);
      assert NodeWork(kid) == if kid.Dir? then KidsWork(kid, 0) + 1 else 0;
      WorkOver(below + [parent], Frame(f.at + [f.next], kid, 0));
      assert below + [parent] + [Frame(f.at + [f.next], kid, 0)] == below + [parent, Frame(f.at + [f.next], kid, 0)];
    }
  }

  datatype End = Completed | Aborted | Refused

  /** Clear one source tree. `goesOn` says at each turn whether the session still runs. What
      is removed are hollow directories only, children first; a run that completes removes
      all of them. */
  method RemoveEmptyDirectories(root: Node, goesOn: nat -> bool) returns (removed: seq<Place>, end: End)
    ensures removed <= Cleared(root, [])
    ensures end.Completed? ==> removed == Cleared(root, [])
    ensures end.Aborted? ==> exists turn :: !goesOn(turn)
    ensures end.Refused? ==> exists p :: Exists(root, p) && At(root, p).Barred?
  {
    hide Sweeping, Work;
    removed := [];
    if root.File? { return removed, Completed; }
    if root.Barred? {
      assert Exists(root, []) && At(root, []).Barred?;
      return removed, Refused;
    }
    var stack, turn := [Frame([], root, 0)], 0;
    Begins(root);
    while stack != []
      invariant Sweeping(root, stack, removed)
      decreases Work(stack)
    {
      PartlyCleared(root, stack, removed);
      if !goesOn(turn) { return removed, Aborted; }
      turn := turn + 1;
      var f, below := stack[|stack| - 1], stack[..|stack| - 1];
      assert stack == below + [f];
      TopFramed(root, stack, removed);
      WorkShrinks(below, f);
      if f.next < |f.dir.kids| {
        Opens(root, below, f, removed);
        var kid, parent := f.dir.kids[f.next], f.(next := f.next + 1);
        if kid.Barred? {
          Deeper(root, f.at, f.next);
          return removed, Refused;
        }
        stack := below + if kid.Dir? then [parent, Frame(f.at + [f.next], kid, 0)] else [parent];
      } else {
        Closes(root, below, f, removed);
        if Vacant(f, removed) { removed := removed + [f.at]; } else { assert removed + [] == removed; }
        stack := below;
      }
    }
    AllCleared(root, removed);
    end := Completed;
  }

  lemma TopFramed(root: Node, stack: seq<Frame>, removed: seq<Place>)
    requires stack != [] && Sweeping(root, stack, removed)
    ensures Framed(root, stack[|stack| - 1])
  {
  }

  lemma PartlyCleared(root: Node, stack: seq<Frame>, removed: seq<Place>)
    requires Sweeping(root, stack, removed)
    ensures removed <= Cleared(root, [])
  {
  }

  lemma AllCleared(root: Node, removed: seq<Place>)
    requires Sweeping(root, [], removed)
    ensures removed == Cleared(root, [])
  {
    assert removed + [] == removed;
  }

  /** However a cleanup ends, everything it removed was a directory with no file beneath;
      complete, it removed every such directory, and each once. */
  lemma CleanupRemoves(root: Node, removed: seq<Place>, p: Place)
    requires removed <= Cleared(root, [])
    ensures p in removed ==> Exists(root, p) && Hollow(At(root, p))
    ensures removed == Cleared(root, []) ==> (p in removed <==> Exists(root, p) && Hollow(At(root, p)))
    ensures multiset(removed)[p] <= 1
  {
    ClearedHas(root, [], p);
    assert p[0..] == p;
    ClearedOnce(root, [], p);
    assert Cleared(root, []) == removed + Cleared(root, [])[|removed|..];
  }

  lemma {:induction false} ClearedOnce(n: Node, at: Place, p: Place)
    ensures multiset(Cleared(n, at))[p] <= 1
    decreases n, 1
  {
    if n.Dir? {
      KidsOnce(n, at, 0, p);
      KidsHave(n, at, 0, p);
      if p == at {
        assert p !in ClearedKids(n, at, 0);
        assert multiset(ClearedKids(n, at, 0))[p] == 0;
      }
      assert multiset(Cleared(n, at)) == multiset(ClearedKids(n, at, 0)) + multiset(Own(n, at));
    }
  }

  lemma {:induction false} KidsOnce(n: Node, at: Place, i: nat, p: Place)
    requires n.Dir?
    ensures multiset(ClearedKids(n, at, i))[p] <= 1
    decreases n, 0, |n.kids| - i
  {
    if i < |n.kids| {
      ClearedOnce(n.kids[i], at + [i], p);
      KidsOnce(n, at, i + 1, p);
      ClearedHas(n.kids[i], at + [i], p);
      KidsHave(n, at, i + 1, p);
      var first, others := Cleared(n.kids[i], at + [i]), ClearedKids(n, at, i + 1);
      assert p in first ==> p[|at|] == i;
      assert p !in first || p !in others;
      assert p in first <==> multiset(first)[p] > 0;
      assert p in others <==> multiset(others)[p] > 0;
    }
  }

  // ---- several roots ----

  /** A place below one of the roots. */
  type Site = (nat, Place)

  function Sited(i: nat, places: seq<Place>): seq<Site> {
    seq(|places|, j requires 0 <= j < |places| => (i, places[j]))
  }

  /** What a cleanup removes under the first roots, one root after another. A root that is gone,
      or is not a directory, has nothing to remove. */
  function ClearedRoots(roots: seq<Node>, n: nat): seq<Site>
    requires n <= |roots|
  {
    if n == 0 then [] else ClearedRoots(roots, n - 1) + Sited(n - 1, Cleared(roots[n - 1], []))
  }

  /** Clear the source roots in order; the first that cannot be cleared ends it. */
  method ClearSources(roots: seq<Node>, goesOn: nat -> (nat -> bool)) returns (removed: seq<Site>, end: End)
    ensures removed <= ClearedRoots(roots, |roots|)
    ensures end.Completed? ==> removed == ClearedRoots(roots, |roots|)
    ensures end.Aborted? ==> exists i, turn :: 0 <= i < |roots| && !goesOn(i)(turn)
    ensures end.Refused? ==> exists i, p :: 0 <= i < |roots| && Exists(roots[i], p) && At(roots[i], p).Barred?
  {
    hide Cleared;
    removed := [];
    for i := 0 to |roots|
      invariant removed == ClearedRoots(roots, i)
    {
      var places;
      places, end := RemoveEmptyDirectories(roots[i], goesOn(i));
      RootsGrow(roots, i, places);
      removed := removed + Sited(i, places);
      if !end.Completed? { return; }
    }
    end := Completed;
  }

  lemma RootsGrow(roots: seq<Node>, i: nat, places: seq<Place>)
    requires i < |roots| && places <= Cleared(roots[i], [])
    ensures ClearedRoots(roots, i) + Sited(i, places) <= ClearedRoots(roots, |roots|)
  {
    hide Cleared;
    var all := Cleared(roots[i], []);
    SitedPrefix(i, places, all);
    RootsPrefix(roots, i + 1, |roots|);
    Behind(ClearedRoots(roots, i), Sited(i, places), Sited(i, all));
  }

  lemma SitedPrefix(i: nat, some: seq<Place>, all: seq<Place>)
    requires some <= all
    ensures Sited(i, some) <= Sited(i, all)
  {
  }

  lemma Behind(a: seq<Site>, b: seq<Site>, c: seq<Site>)
    requires b <= c
    ensures a + b <= a + c
  {
  }

  lemma {:induction false} RootsPrefix(roots: seq<Node>, i: nat, n: nat)
    requires i <= n <= |roots|
    ensures ClearedRoots(roots, i) <= ClearedRoots(roots, n)
    decreases n
  {
    if i < n { RootsPrefix(roots, i, n - 1); }
  }

  /** However clearing the sources ends, everything removed was a directory of some root with no
      file beneath; complete, it removed every such directory under every root. */
  lemma {:induction false} SourcesClearedHas(roots: seq<Node>, n: nat, i: nat, p: Place)
    requires n <= |roots|
    ensures (i, p) in ClearedRoots(roots, n) <==> i < n && Exists(roots[i], p) && Hollow(At(roots[i], p))
    decreases n
  {
    if n > 0 {
      SourcesClearedHas(roots, n - 1, i, p);
      ClearedHas(roots[n - 1], [], p);
      assert p[0..] == p;
      SitedHas(n - 1, Cleared(roots[n - 1], []), i, p);
    }
  }

  lemma SitedHas(n: nat, places: seq<Place>, i: nat, p: Place)
    ensures (i, p) in Sited(n, places) <==> i == n && p in places
  {
    if i == n && p in places {
      var j :| 0 <= j < |places| && places[j] == p;
      assert Sited(n, places)[j] == (i, p);
    }
  }
}
