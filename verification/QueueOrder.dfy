/** Reordering the pending queue: bulk moves of a selection, and the order of one page. */
module QueueOrder {
  import opened Items
  import opened Sequences
  import opened LivePlan

  predicate Chosen(f: File, ids: set<nat>) { f.id in ids }

  /** One upward pass, `x` being the item just before `rest`. */
  function UpFrom(x: File, rest: seq<File>, ids: set<nat>): (r: seq<File>)
    ensures |r| == |rest| + 1
    decreases |rest|
  {
    if rest == [] then [x]
    else if Chosen(rest[0], ids) && !Chosen(x, ids) then [rest[0]] + UpFrom(x, rest[1..], ids)
    else [x] + UpFrom(rest[0], rest[1..], ids)
  }

  function Up(xs: seq<File>, ids: set<nat>): (r: seq<File>)
    ensures |r| == |xs|
  {
    if xs == [] then [] else UpFrom(xs[0], xs[1..], ids)
  }

  function Reverse(xs: seq<File>): (r: seq<File>)
    ensures |r| == |xs| && forall i :: 0 <= i < |xs| ==> r[i] == xs[|xs| - 1 - i]
  {
    seq(|xs|, i requires 0 <= i < |xs| => xs[|xs| - 1 - i])
  }

  /** A downward pass is an upward pass seen in a mirror. */
  function Down(xs: seq<File>, ids: set<nat>): (r: seq<File>)
    ensures |r| == |xs|
  {
    Reverse(Up(Reverse(xs), ids))
  }

  /** No chosen item comes directly after one that is not chosen. */
  predicate Gathered(xs: seq<File>, ids: set<nat>) {
    forall i :: 1 <= i < |xs| ==> !(Chosen(xs[i], ids) && !Chosen(xs[i - 1], ids))
  }

  /** The length of the leading run of chosen items. */
  function Lead(xs: seq<File>, ids: set<nat>): (n: nat)
    ensures n <= |xs|
  {
    if xs == [] || !Chosen(xs[0], ids) then 0 else 1 + Lead(xs[1..], ids)
  }

  lemma {:induction false} UpFromKeeps(x: File, rest: seq<File>, ids: set<nat>)
    ensures multiset(UpFrom(x, rest, ids)) == multiset([x] + rest)
    ensures Selected(UpFrom(x, rest, ids), ids) == Selected([x] + rest, ids)
    ensures Kept(UpFrom(x, rest, ids), ids) == Kept([x] + rest, ids)
    decreases |rest|
  {
    if rest == [] {
      assert [x] + rest == [x];
    } else {
      var y, tail := rest[0], rest[1..];
      assert rest == [y] + tail;
      if Chosen(y, ids) && !Chosen(x, ids) {
        UpFromKeeps(x, tail, ids);
        ConsSplit(x, rest, ids);
        ConsSplit(y, tail, ids);
        ConsSplit(x, tail, ids);
        ConsSplit(y, UpFrom(x, tail, ids), ids);
      } else {
        UpFromKeeps(y, tail, ids);
        ConsSplit(x, rest, ids);
        ConsSplit(x, UpFrom(y, tail, ids), ids);
      }
    }
  }

  lemma ConsSplit(x: File, xs: seq<File>, ids: set<nat>)
    ensures Selected([x] + xs, ids) == (if Chosen(x, ids) then [x] else []) + Selected(xs, ids)
    ensures Kept([x] + xs, ids) == (if Chosen(x, ids) then [] else [x]) + Kept(xs, ids)
  {
    assert ([x] + xs)[1..] == xs;
  }

  /** A bulk move keeps the queue's items and the order within and outside the selection. */
  lemma UpKeepsOrders(xs: seq<File>, ids: set<nat>)
    ensures multiset(Up(xs, ids)) == multiset(xs)
    ensures Selected(Up(xs, ids), ids) == Selected(xs, ids)
    ensures Kept(Up(xs, ids), ids) == Kept(xs, ids)
  {
    if xs != [] {
      UpFromKeeps(xs[0], xs[1..], ids);
      assert xs == [xs[0]] + xs[1..];
    }
  }

  lemma {:induction false} UpFromShifts(x: File, rest: seq<File>, ids: set<nat>, i: nat)
    requires i < |rest| && Chosen(rest[i], ids)
    requires !Chosen(x, ids) || exists j :: 0 <= j < i && !Chosen(rest[j], ids)
    ensures UpFrom(x, rest, ids)[i] == rest[i]
    decreases |rest|
  {
    if Chosen(rest[0], ids) && !Chosen(x, ids) {
      if i > 0 { UpFromShifts(x, rest[1..], ids, i - 1); }
    } else {
      var j :| 0 <= j < i && (!Chosen(rest[j], ids) || !Chosen(x, ids));
      if Chosen(rest[0], ids) && j > 0 { assert !Chosen(rest[1..][j - 1], ids); }
      UpFromShifts(rest[0], rest[1..], ids, i - 1);
    }
  }

  lemma {:induction false} LeadStays(x: File, rest: seq<File>, ids: set<nat>, i: nat)
    requires i < Lead([x] + rest, ids)
    ensures UpFrom(x, rest, ids)[i] == ([x] + rest)[i]
    decreases |rest|
  {
    assert ([x] + rest)[1..] == rest;
    if rest != [] && i > 0 {
      assert rest == [rest[0]] + rest[1..];
      LeadStays(rest[0], rest[1..], ids, i - 1);
    }
  }

  lemma {:induction false} LeadEnds(xs: seq<File>, ids: set<nat>)
    ensures forall i :: 0 <= i < Lead(xs, ids) ==> Chosen(xs[i], ids)
    ensures Lead(xs, ids) < |xs| ==> !Chosen(xs[Lead(xs, ids)], ids)
  {
    if xs != [] && Chosen(xs[0], ids) {
      LeadEnds(xs[1..], ids);
      forall i | 0 <= i < Lead(xs, ids)
        ensures Chosen(xs[i], ids)
      {
        if i > 0 { assert xs[i] == xs[1..][i - 1]; }
      }
    }
  }

  /** A bulk move-up shifts every chosen item outside the leading run by exactly one place,
      and leaves those of the leading run where they are. */
  lemma UpShiftsByOne(xs: seq<File>, ids: set<nat>, i: nat)
    requires i < |xs| && Chosen(xs[i], ids)
    ensures Up(xs, ids)[if i < Lead(xs, ids) then i else i - 1] == xs[i]
    ensures i >= Lead(xs, ids) ==> i > 0
  {
    var lead := Lead(xs, ids);
    LeadEnds(xs, ids);
    assert xs == [xs[0]] + xs[1..];
    if i < lead {
      LeadStays(xs[0], xs[1..], ids, i);
    } else {
      assert !Chosen(xs[lead], ids) && lead < i;
      if lead > 0 { assert !Chosen(xs[1..][lead - 1], ids); }
      UpFromShifts(xs[0], xs[1..], ids, i - 1);
    }
  }

  /** The distance still to go: over all chosen items, how many others come before each. */
  function Displacement(xs: seq<File>, ids: set<nat>): nat {
    if xs == [] then 0
    else if Chosen(xs[0], ids) then Displacement(xs[1..], ids)
    else |Selected(xs[1..], ids)| + Displacement(xs[1..], ids)
  }

  lemma {:induction false} UpFromCloser(x: File, rest: seq<File>, ids: set<nat>)
    ensures Displacement(UpFrom(x, rest, ids), ids) <= Displacement([x] + rest, ids)
    ensures !Chosen(x, ids) && Selected(rest, ids) != []
            ==> Displacement(UpFrom(x, rest, ids), ids) < Displacement([x] + rest, ids)
    ensures !Gathered([x] + rest, ids) ==> Displacement(UpFrom(x, rest, ids), ids) < Displacement([x] + rest, ids)
    decreases |rest|
  {
    assert ([x] + rest)[1..] == rest;
    if rest != [] {
      var y, tail := rest[0], rest[1..];
      assert rest == [y] + tail && ([y] + tail)[1..] == tail && ([x] + tail)[1..] == tail;
      if Chosen(y, ids) && !Chosen(x, ids) {
        var up := UpFrom(x, tail, ids);
        UpFromCloser(x, tail, ids);
        assert ([y] + up)[1..] == up;
      } else {
        var up := UpFrom(y, tail, ids);
        UpFromCloser(y, tail, ids);
        UpFromKeeps(y, tail, ids);
        assert ([x] + up)[1..] == up;
        if !Gathered([x] + rest, ids) {
          var i :| 1 <= i < |[x] + rest| && Chosen(([x] + rest)[i], ids) && !Chosen(([x] + rest)[i - 1], ids);
          assert i >= 2 && ([y] + tail)[i - 1] == ([x] + rest)[i] && ([y] + tail)[i - 2] == ([x] + rest)[i - 1];
        }
      }
    } else {
      assert UpFrom(x, rest, ids) == [x] + rest;
    }
  }

  lemma {:induction false} GatheredSplits(xs: seq<File>, ids: set<nat>)
    requires Gathered(xs, ids)
    ensures xs == Selected(xs, ids) + Kept(xs, ids)
    ensures xs != [] && !Chosen(xs[0], ids) ==> Selected(xs, ids) == []
  {
    if xs != [] {
      assert forall i :: 1 <= i < |xs[1..]| ==> xs[1..][i] == xs[i + 1] && xs[1..][i - 1] == xs[i];
      GatheredSplits(xs[1..], ids);
    }
  }

  /** Moving up until nothing changes. */
  function Settle(xs: seq<File>, ids: set<nat>): seq<File>
    decreases Displacement(xs, ids)
  {
    if Gathered(xs, ids) then xs
    else
      UpFromCloser(xs[0], xs[1..], ids);
      assert xs == [xs[0]] + xs[1..];
      Settle(Up(xs, ids), ids)
  }

  /** Repeating the move terminates in the stable partition: the chosen items in their
      order, then the others in theirs. */
  lemma {:induction false} SettlesPartitioned(xs: seq<File>, ids: set<nat>)
    ensures Settle(xs, ids) == Selected(xs, ids) + Kept(xs, ids)
    decreases Displacement(xs, ids)
  {
    if Gathered(xs, ids) {
      GatheredSplits(xs, ids);
    } else {
      UpFromCloser(xs[0], xs[1..], ids);
      assert xs == [xs[0]] + xs[1..];
      SettlesPartitioned(Up(xs, ids), ids);
      UpKeepsOrders(xs, ids);
    }
  }

  lemma {:induction false} UpFromFixed(x: File, rest: seq<File>, ids: set<nat>)
    requires Gathered([x] + rest, ids)
    ensures UpFrom(x, rest, ids) == [x] + rest
    decreases |rest|
  {
    if rest != [] {
      assert rest == [rest[0]] + rest[1..];
      assert ([x] + rest)[1] == rest[0] && ([x] + rest)[0] == x;
      forall i | 1 <= i < |rest|
        ensures !(Chosen(rest[i], ids) && !Chosen(rest[i - 1], ids))
      {
        assert rest[i] == ([x] + rest)[i + 1] && rest[i - 1] == ([x] + rest)[i + 1 - 1];
      }
      UpFromFixed(rest[0], rest[1..], ids);
    }
  }

  /** The pass changes the queue exactly when some chosen item has another one before it. */
  lemma UpChangesIff(xs: seq<File>, ids: set<nat>)
    ensures Up(xs, ids) == xs <==> Gathered(xs, ids)
  {
    if xs != [] {
      assert xs == [xs[0]] + xs[1..];
      if Gathered(xs, ids) { UpFromFixed(xs[0], xs[1..], ids); } else { UpFromCloser(xs[0], xs[1..], ids); }
    }
  }

  lemma ReverseTwice(xs: seq<File>)
    ensures Reverse(Reverse(xs)) == xs
  {
  }

  lemma {:induction false} ReverseBag(xs: seq<File>)
    ensures multiset(Reverse(xs)) == multiset(xs)
  {
    if xs != [] {
      ReverseBag(xs[1..]);
      assert Reverse(xs) == Reverse(xs[1..]) + [xs[0]];
      assert xs == [xs[0]] + xs[1..];
    }
  }

  /** Moving down shifts every chosen item outside the trailing run by exactly one place. */
  lemma DownShiftsByOne(xs: seq<File>, ids: set<nat>, i: nat)
    requires i < |xs| && Chosen(xs[i], ids)
    ensures var trail := |xs| - Lead(Reverse(xs), ids);
      if i >= trail then Down(xs, ids)[i] == xs[i] else i + 1 < |xs| && Down(xs, ids)[i + 1] == xs[i]
    ensures multiset(Down(xs, ids)) == multiset(xs)
  {
    UpShiftsByOne(Reverse(xs), ids, |xs| - 1 - i);
    UpKeepsOrders(Reverse(xs), ids);
    ReverseBag(xs);
    ReverseBag(Up(Reverse(xs), ids));
  }

  lemma DownBag(xs: seq<File>, ids: set<nat>)
    ensures multiset(Down(xs, ids)) == multiset(xs)
  {
    UpKeepsOrders(Reverse(xs), ids);
    ReverseBag(xs);
    ReverseBag(Up(Reverse(xs), ids));
  }

  // ---- one page ----

  /** The position of an id in a requested order. */
  function Rank(ids: seq<nat>, id: nat): (r: nat)
    requires id in ids
    ensures r < |ids| && ids[r] == id
  {
    if ids[0] == id then 0 else 1 + Rank(ids[1..], id)
  }

  predicate Unrepeated(ids: seq<nat>) { forall i, j :: 0 <= i < j < |ids| ==> ids[i] != ids[j] }

  function Page(pending: seq<File>, offset: nat, count: nat): (page: seq<File>)
    requires offset + count <= |pending|
    ensures |page| == count && forall i :: 0 <= i < count ==> page[i] == pending[offset + i]
  {
    pending[offset..offset + count]
  }

  /** The request names exactly the items now on the page at `offset`, in another order. */
  predicate Reorders(pending: seq<File>, offset: nat, ids: seq<nat>) {
    && |ids| >= 2 && Unrepeated(ids) && offset + |ids| <= |pending|
    && var page := Page(pending, offset, |ids|);
    && (forall f :: f in page ==> f.id in ids)
    && exists i :: 0 <= i < |ids| && page[i].id != ids[i]
  }

  /** `t` is `s` with the page in the requested order and the rest of the queue untouched. */
  predicate PageOrdered(s: seq<File>, t: seq<File>, offset: nat, ids: seq<nat>) {
    && offset + |ids| <= |s| == |t|
    && t[..offset] == s[..offset] && t[offset + |ids|..] == s[offset + |ids|..]
    && var before, after := Page(s, offset, |ids|), Page(t, offset, |ids|);
    && forall i :: 0 <= i < |ids| ==> after[i].id == ids[i] && after[i] in before
  }

  function IdsIn(ids: seq<nat>): set<nat> { set id | id in ids }

  lemma {:induction false} DistinctSize(ids: seq<nat>)
    requires Unrepeated(ids)
    ensures |IdsIn(ids)| == |ids|
  {
    if ids == [] {
      assert IdsIn(ids) == {};
    } else {
      var rest := ids[1..];
      assert forall i, j :: 0 <= i < j < |rest| ==> rest[i] == ids[i + 1] && rest[j] == ids[j + 1];
      DistinctSize(rest);
      assert ids[0] !in rest;
      assert IdsIn(ids) == IdsIn(rest) + {ids[0]};
    }
  }

  /** Pigeonhole: as many distinct items as requested ids, all requested, fill every slot. */
  lemma PageFills(page: seq<File>, ids: seq<nat>, r: nat)
    requires DistinctBy(page, IdOf) && Unrepeated(ids) && |page| == |ids| && r < |ids|
    requires forall f :: f in page ==> f.id in ids
    ensures exists i :: 0 <= i < |page| && page[i].id == ids[r]
  {
    var have := seq(|page|, i requires 0 <= i < |page| => page[i].id);
    assert forall i, j :: 0 <= i < j < |page| ==> IdOf(page[i]) != IdOf(page[j]);
    assert Unrepeated(have);
    DistinctSize(have);
    DistinctSize(ids);
    SubsetOfSameSize(IdsIn(have), IdsIn(ids));
    assert ids[r] in IdsIn(have);
    var i :| 0 <= i < |have| && have[i] == ids[r];
    assert page[i].id == ids[r];
  }

  lemma SubsetOfSameSize(a: set<nat>, b: set<nat>)
    requires a <= b && |a| == |b|
    ensures a == b
  {
    assert |b - a| == |b| - |a|;
  }

  lemma {:induction false} DistinctIn<T>(xs: seq<T>, ys: seq<T>)
    requires |xs| == |ys|
    requires forall i, j :: 0 <= i < j < |xs| ==> xs[i] != xs[j]
    requires forall x :: x in xs ==> x in ys
    ensures multiset(xs) == multiset(ys)
    decreases |xs|
  {
    if xs == [] {
      assert ys == [];
    } else {
      assert xs[0] in xs;
      var n :| 0 <= n < |ys| && ys[n] == xs[0];
      var rest := RemoveAt(ys, n);
      assert xs == [xs[0]] + xs[1..];
      forall i | 0 <= i < |xs[1..]|
        ensures xs[1..][i] in rest
      {
        assert xs[i + 1] != xs[0] && xs[i + 1] in ys;
        var m :| 0 <= m < |ys| && ys[m] == xs[i + 1];
        assert rest[if m < n then m else m - 1] == xs[i + 1];
      }
      DistinctIn(xs[1..], rest);
    }
  }

  /** A page reorder permutes the queue. */
  lemma PageOrderPermutes(s: seq<File>, t: seq<File>, offset: nat, ids: seq<nat>)
    requires Unrepeated(ids) && PageOrdered(s, t, offset, ids)
    ensures multiset(t) == multiset(s)
  {
    var n := offset + |ids|;
    var a, b := Page(t, offset, |ids|), Page(s, offset, |ids|);
    forall i, j | 0 <= i < j < |a|
      ensures a[i] != a[j]
    {
      assert a[i].id == ids[i] && a[j].id == ids[j];
    }
    DistinctIn(a, b);
    assert s == s[..offset] + b + s[n..] && t == t[..offset] + a + t[n..];
  }

  /** The requested order determines the whole queue. */
  lemma PageOrderUnique(s: seq<File>, t: seq<File>, u: seq<File>, offset: nat, ids: seq<nat>)
    requires DistinctBy(s, IdOf) && PageOrdered(s, t, offset, ids) && PageOrdered(s, u, offset, ids)
    ensures t == u
  {
    var n := offset + |ids|;
    var a, b := Page(t, offset, |ids|), Page(u, offset, |ids|);
    forall i | 0 <= i < |ids|
      ensures a[i] == b[i]
    {
      assert forall f :: f in Page(s, offset, |ids|) ==> f in s;
      DistinctMember(s, IdOf, a[i], b[i]);
    }
    assert t == t[..offset] + a + t[n..] && u == u[..offset] + b + u[n..];
  }
}
