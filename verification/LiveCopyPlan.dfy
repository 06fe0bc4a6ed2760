/** The live plan as the mutable object the executor and the window share. Every method is
    one critical section; its contract is the operation of the same name on plan values. */
module LiveCopyPlans {
  import opened Items
  import opened Sequences
  import opened LivePlan
  import opened PlanInvariant
  import opened PlanOperations
  import opened PlanAdmission
  import opened PlanEntry
  import opened QueueOrder

  // ---- facts about prefixes, for the loops below ----

  lemma {:induction false} SelectedSnoc(xs: seq<File>, f: File, ids: set<nat>)
    ensures Selected(xs + [f], ids) == Selected(xs, ids) + if f.id in ids then [f] else []
  {
    if xs == [] {
      assert xs + [f] == [f];
    } else {
      assert (xs + [f])[1..] == xs[1..] + [f];
      SelectedSnoc(xs[1..], f, ids);
    }
  }

  lemma {:induction false} DropAllSnoc(s: Plan, xs: seq<File>, f: File)
    ensures DropAll(s, xs + [f]) == DropInFlight(DropAll(s, xs), f.id)
    decreases xs
  {
    if xs == [] {
      assert [f][1..] == [] && xs + [f] == [f];
    } else {
      assert (xs + [f])[1..] == xs[1..] + [f];
      DropAllSnoc(DropInFlight(s, xs[0].id), xs[1..], f);
    }
  }

  lemma {:induction false} DropAllIgnores(s: Plan, xs: seq<File>, pending: seq<File>, largest: nat)
    ensures DropAll(s, xs).(pending := pending, largest := largest)
            == DropAll(s.(pending := pending, largest := largest), xs)
    decreases xs
  {
    if xs != [] { DropAllIgnores(DropInFlight(s, xs[0].id), xs[1..], pending, largest); }
  }

  lemma {:induction false} FailUnderNothing(k: Keys, s: Plan, directory: Path, hresult: int, i: nat)
    requires k.key(directory) == [] && i <= |s.pending|
    ensures FailUnder(k, s, directory, hresult, i) == s
    decreases |s.pending| - i
  {
    if i < |s.pending| { FailUnderNothing(k, s, directory, hresult, i + 1); }
  }

  function Prefixed(files: seq<File>, r: Screened): Screened {
    match r
    case Refused(_) => r
    case Accepted(rest, keys) => Accepted(files + rest, keys)
  }

  method IndexOf(files: seq<File>, id: nat) returns (i: nat)
    ensures i == Find(files, id)
  {
    i := 0;
    while i < |files| && files[i].id != id
      invariant i <= |files| && Find(files, id) == i + Find(files[i..], id)
    {
      i := i + 1;
    }
  }

  method Heaviest(files: seq<File>) returns (largest: nat)
    ensures largest == Largest(files)
  {
    largest := 0;
    for i := 0 to |files|
      invariant largest == Largest(files[..i])
    {
      LargestSnoc(files[..i], files[i]);
      assert files[..i + 1] == files[..i] + [files[i]];
      largest := Max(largest, files[i].size);
    }
    assert files[..|files|] == files;
  }

  method ScreenAll(k: Keys, now: Path -> Key, files: seq<File>, reserved: set<Key>) returns (r: Screened)
    ensures r == Screen(k, now, files, reserved)
  {
    var accepted: seq<File>, taken := [], reserved;
    for i := 0 to |files|
      invariant Screen(k, now, files, reserved) == Prefixed(accepted, Screen(k, now, files[i..], taken))
    {
      assert files[i..][0] == files[i] && files[i..][1..] == files[i + 1..];
      var settled := WithPolicy(k, files[i]);
      if settled == None { return Refused(InternalFailure); }
      var key := k.key(settled.value.destination);
      if key == [] || key != now(settled.value.destination) || key in taken { return Refused(DestinationCollision); }
      ghost var rest := Screen(k, now, files[i + 1..], taken + {key});
      if rest.Accepted? {
        assert accepted + ([settled.value] + rest.files) == accepted + [settled.value] + rest.files;
      }
      accepted, taken := accepted + [settled.value], taken + {key};
    }
    assert files[|files|..] == [];
    r := Accepted(accepted, taken);
  }

  /** The queue after looking at positions `i - 1` and `i` of an upward pass. */
  function Exchange(xs: seq<File>, i: nat, ids: set<nat>): (ys: seq<File>)
    requires 1 <= i < |xs|
    ensures |ys| == |xs|
  {
    if Chosen(xs[i], ids) && !Chosen(xs[i - 1], ids) then xs[i - 1 := xs[i]][i := xs[i - 1]] else xs
  }

  /** What a pass that has reached position `i` will make of the queue. */
  function Ahead(xs: seq<File>, i: nat, ids: set<nat>): seq<File>
    requires 1 <= i <= |xs|
  {
    xs[..i - 1] + UpFrom(xs[i - 1], xs[i..], ids)
  }

  lemma AheadStep(xs: seq<File>, i: nat, ids: set<nat>)
    requires 1 <= i < |xs|
    ensures Ahead(Exchange(xs, i, ids), i + 1, ids) == Ahead(xs, i, ids)
  {
    var ys := Exchange(xs, i, ids);
    assert xs[i..][0] == xs[i] && xs[i..][1..] == xs[i + 1..] == ys[i + 1..];
    assert ys[..i] == xs[..i - 1] + [ys[i - 1]];
    assert UpFrom(xs[i - 1], xs[i..], ids) == [ys[i - 1]] + UpFrom(ys[i], ys[i + 1..], ids);
  }

  lemma AheadEnds(xs: seq<File>, ids: set<nat>)
    requires xs != []
    ensures Ahead(xs, 1, ids) == Up(xs, ids) && Ahead(xs, |xs|, ids) == xs
  {
    assert xs[..0] == [] && xs[|xs|..] == [];
    assert xs == xs[..|xs| - 1] + [xs[|xs| - 1]];
  }

  lemma GatheredStep(xs: seq<File>, i: nat, ids: set<nat>)
    requires 1 <= i < |xs| && Gathered(xs[..i], ids)
    ensures Gathered(xs[..i + 1], ids) <==> Exchange(xs, i, ids) == xs && !(Chosen(xs[i], ids) && !Chosen(xs[i - 1], ids))
    ensures Chosen(xs[i], ids) && !Chosen(xs[i - 1], ids) ==> !Gathered(xs, ids)
  {
    forall j | 1 <= j < i
      ensures !(Chosen(xs[j], ids) && !Chosen(xs[j - 1], ids))
    {
      assert xs[..i][j] == xs[j] && xs[..i][j - 1] == xs[j - 1];
    }
    assert xs[..i + 1][i] == xs[i] && xs[..i + 1][i - 1] == xs[i - 1];
  }

  /** One upward pass over the queue by adjacent swaps. */
  method LiftChosen(queue: seq<File>, ids: set<nat>) returns (xs: seq<File>, changed: bool)
    ensures xs == Up(queue, ids)
    ensures changed <==> !Gathered(queue, ids)
  {
    hide Ahead, Up, Gathered, Exchange;
    xs, changed := queue, false;
    if queue == [] {
      NothingToMove(ids);
      return;
    }
    var i := 1;
    AheadEnds(queue, ids);
    OneGathered(queue, ids);
    while i < |xs|
      invariant |xs| == |queue| && 1 <= i <= |xs|
      invariant Ahead(xs, i, ids) == Up(queue, ids)
      invariant !changed ==> xs == queue && Gathered(queue[..i], ids)
      invariant changed ==> !Gathered(queue, ids)
    {
      AheadStep(xs, i, ids);
      if !changed { GatheredStep(xs, i, ids); }
      ghost var next := Exchange(xs, i, ids);
      SwapIsExchange(xs, i, ids);
      if Chosen(xs[i], ids) && !Chosen(xs[i - 1], ids) {
        xs := xs[i - 1 := xs[i]][i := xs[i - 1]];
        changed := true;
      }
      i := i + 1;
    }
    AheadEnds(xs, ids);
    assert queue[..i] == queue;
  }

  lemma SwapIsExchange(xs: seq<File>, i: nat, ids: set<nat>)
    requires 1 <= i < |xs|
    ensures Exchange(xs, i, ids) == if Chosen(xs[i], ids) && !Chosen(xs[i - 1], ids)
                                    then xs[i - 1 := xs[i]][i := xs[i - 1]] else xs
  {
  }

  lemma NothingToMove(ids: set<nat>)
    ensures Up([], ids) == [] && Gathered([], ids)
  {
  }

  lemma OneGathered(xs: seq<File>, ids: set<nat>)
    requires xs != []
    ensures Gathered(xs[..1], ids)
  {
  }

  lemma MirroredSwap(xs: seq<File>, cursor: nat, ids: set<nat>)
    requires 1 <= cursor < |xs|
    ensures Reverse(xs)[|xs| - cursor] == xs[cursor - 1] && Reverse(xs)[|xs| - cursor - 1] == xs[cursor]
    ensures Exchange(Reverse(xs), |xs| - cursor, ids)
            == Reverse(if Chosen(xs[cursor - 1], ids) && !Chosen(xs[cursor], ids)
                       then xs[cursor - 1 := xs[cursor]][cursor := xs[cursor - 1]] else xs)
  {
    var n := |xs|;
    assert Reverse(xs)[n - cursor] == xs[cursor - 1] && Reverse(xs)[n - cursor - 1] == xs[cursor];
  }

  /** A downward pass that has come down to `cursor`, seen in the mirror. */
  ghost predicate Lowering(queue: seq<File>, xs: seq<File>, cursor: nat, changed: bool, ids: set<nat>) {
    && cursor < |xs| == |queue|
    && Ahead(Reverse(xs), |xs| - cursor, ids) == Up(Reverse(queue), ids)
    && (!changed ==> xs == queue && Gathered(Reverse(queue)[..|queue| - cursor], ids))
    && (changed ==> !Gathered(Reverse(queue), ids))
  }

  lemma LoweringStarts(queue: seq<File>, ids: set<nat>)
    requires queue != []
    ensures Lowering(queue, queue, |queue| - 1, false, ids)
  {
    AheadEnds(Reverse(queue), ids);
    OneGathered(Reverse(queue), ids);
  }

  lemma LoweringStep(queue: seq<File>, xs: seq<File>, cursor: nat, changed: bool, ids: set<nat>)
    requires 1 <= cursor && Lowering(queue, xs, cursor, changed, ids)
    ensures var swap := Chosen(xs[cursor - 1], ids) && !Chosen(xs[cursor], ids);
      Lowering(queue, if swap then xs[cursor - 1 := xs[cursor]][cursor := xs[cursor - 1]] else xs,
               cursor - 1, changed || swap, ids)
  {
    hide Ahead, Up, Gathered, Reverse;
    AheadStep(Reverse(xs), |xs| - cursor, ids);
    if !changed { GatheredStep(Reverse(xs), |xs| - cursor, ids); }
    MirroredSwap(xs, cursor, ids);
  }

  lemma LoweringEnds(queue: seq<File>, xs: seq<File>, changed: bool, ids: set<nat>)
    requires Lowering(queue, xs, 0, changed, ids)
    ensures xs == Down(queue, ids) && (changed <==> !Gathered(Reverse(queue), ids))
  {
    AheadEnds(Reverse(xs), ids);
    ReverseTwice(xs);
    assert Reverse(queue)[..|queue|] == Reverse(queue);
  }

  /** One downward pass over the queue by adjacent swaps. */
  method LowerChosen(queue: seq<File>, ids: set<nat>) returns (xs: seq<File>, changed: bool)
    ensures xs == Down(queue, ids)
    ensures changed <==> !Gathered(Reverse(queue), ids)
  {
    xs, changed := queue, false;
    if |xs| == 0 { return; }
    hide Lowering, Down, Gathered, Reverse;
    LoweringStarts(queue, ids);
    var cursor := |xs| - 1;
    while cursor != 0
      invariant 0 <= cursor < |xs| && Lowering(queue, xs, cursor, changed, ids)
    {
      var i := cursor - 1;
      LoweringStep(queue, xs, cursor, changed, ids);
      if Chosen(xs[i], ids) && !Chosen(xs[i + 1], ids) {
        xs := xs[i := xs[i + 1]][i + 1 := xs[i]];
        changed := true;
      }
      cursor := cursor - 1;
    }
    LoweringEnds(queue, xs, changed, ids);
  }

  /** The rank of every requested id, unless one is repeated. */
  method RankIds(ids: seq<nat>) returns (ok: bool, rank: map<nat, nat>)
    ensures ok <==> Unrepeated(ids)
    ensures ok ==> rank.Keys == IdsIn(ids) && forall r :: 0 <= r < |ids| ==> rank[ids[r]] == r
  {
    rank := map[];
    for i := 0 to |ids|
      invariant forall id :: id in rank ==> rank[id] < i && ids[rank[id]] == id
      invariant Unrepeated(ids[..i])
      invariant forall a :: 0 <= a < i ==> ids[a] in rank && rank[ids[a]] == a
    {
      if ids[i] in rank {
        assert ids[rank[ids[i]]] == ids[i];
        return false, rank;
      }
      rank := rank[ids[i] := i];
    }
    assert ids[..|ids|] == ids;
    ok := true;
  }

  /** Put the items of a page at their ranks. */
  method SortPage(page: seq<File>, ids: seq<nat>, rank: map<nat, nat>) returns (sorted: seq<File>)
    requires DistinctBy(page, IdOf) && Unrepeated(ids) && |page| == |ids|
    requires forall f :: f in page ==> f.id in ids
    requires rank.Keys == IdsIn(ids) && forall r :: 0 <= r < |ids| ==> rank[ids[r]] == r
    ensures |sorted| == |ids| && forall r :: 0 <= r < |ids| ==> sorted[r].id == ids[r] && sorted[r] in page
  {
    sorted := page;
    for i := 0 to |ids|
      invariant |sorted| == |ids|
      invariant forall j :: 0 <= j < i ==> sorted[Rank(ids, page[j].id)] == page[j]
    {
      var at := rank[page[i].id];
      assert at == Rank(ids, page[i].id);
      forall j | 0 <= j < i
        ensures Rank(ids, page[j].id) != at
      {
        assert IdOf(page[j]) != IdOf(page[i]);
      }
      sorted := sorted[at := page[i]];
    }
    forall r | 0 <= r < |ids|
      ensures sorted[r].id == ids[r] && sorted[r] in page
    {
      PageFills(page, ids, r);
      var i :| 0 <= i < |page| && page[i].id == ids[r];
      assert Rank(ids, page[i].id) == r;
    }
  }

  /** Whether every item of the page is requested, and whether some item is out of place. */
  method CheckPage(page: seq<File>, ids: seq<nat>, rank: map<nat, nat>) returns (exact: bool, changed: bool)
    requires |page| == |ids| && rank.Keys == IdsIn(ids)
    ensures exact <==> forall f :: f in page ==> f.id in ids
    ensures exact ==> (changed <==> exists i :: 0 <= i < |ids| && page[i].id != ids[i])
  {
    exact, changed := true, false;
    for i := 0 to |page|
      invariant forall j :: 0 <= j < i ==> page[j].id in ids
      invariant changed <==> exists j :: 0 <= j < i && page[j].id != ids[j]
    {
      if page[i].id !in rank {
        assert page[i] in page;
        return false, changed;
      }
      changed := changed || page[i].id != ids[i];
    }
  }

  lemma SpliceOrdered(queue: seq<File>, offset: nat, ids: seq<nat>, sorted: seq<File>)
    requires offset + |ids| <= |queue| && |sorted| == |ids|
    requires forall r :: 0 <= r < |ids| ==> sorted[r].id == ids[r] && sorted[r] in Page(queue, offset, |ids|)
    ensures PageOrdered(queue, queue[..offset] + sorted + queue[offset + |ids|..], offset, ids)
  {
    var xs := queue[..offset] + sorted + queue[offset + |ids|..];
    assert Page(xs, offset, |ids|) == sorted;
    assert xs[..offset] == queue[..offset] && xs[offset + |ids|..] == queue[offset + |ids|..];
  }

  /** The queue with one page in the requested order, or a refusal. */
  method ArrangePage(queue: seq<File>, offset: nat, ids: seq<nat>) returns (ok: bool, xs: seq<File>)
    requires DistinctBy(queue, IdOf)
    ensures ok <==> Reorders(queue, offset, ids)
    ensures if ok then PageOrdered(queue, xs, offset, ids) else xs == queue
  {
    hide PageOrdered, DistinctBy, Unrepeated;
    xs := queue;
    if |ids| < 2 { return false, xs; }
    var distinct, rank := RankIds(ids);
    if !distinct || offset > |queue| || |ids| > |queue| - offset { return false, xs; }
    var page := Page(queue, offset, |ids|);
    var exact, changed := CheckPage(page, ids, rank);
    if !exact || !changed { return false, xs; }
    PageApart(queue, offset, |ids|);
    var sorted := SortPage(page, ids, rank);
    SpliceOrdered(queue, offset, ids, sorted);
    xs := queue[..offset] + sorted + queue[offset + |ids|..];
    ok := true;
  }

  lemma PageApart(queue: seq<File>, offset: nat, count: nat)
    requires DistinctBy(queue, IdOf) && offset + count <= |queue|
    ensures DistinctBy(Page(queue, offset, count), IdOf)
  {
    var page := Page(queue, offset, count);
    assert queue == queue[..offset] + page + queue[offset + count..];
    DistinctSubset(queue, page, IdOf);
  }

  /** What a removal takes out, with its byte and weight totals as the code adds them up. */
  method CollectRemovals(queue: seq<File>, ids: set<nat>, largest: nat)
    returns (gone: seq<File>, bytes: nat, weight: nat, heaviest: bool)
    ensures gone == Selected(queue, ids)
    ensures bytes == Wrap(Sum(gone, SizeOf)) && weight == Wrap(Sum(gone, WeightOf))
    ensures heaviest <==> exists f :: f in gone && f.size == largest
  {
    gone, bytes, weight, heaviest := [], 0, 0, false;
    for i := 0 to |queue|
      invariant gone == Selected(queue[..i], ids)
      invariant bytes == Wrap(Sum(gone, SizeOf)) && weight == Wrap(Sum(gone, WeightOf))
      invariant heaviest <==> exists f :: f in gone && f.size == largest
    {
      assert queue[..i + 1] == queue[..i] + [queue[i]];
      SelectedSnoc(queue[..i], queue[i], ids);
      if queue[i].id in ids {
        SumSnoc(gone, queue[i], SizeOf);
        SumSnoc(gone, queue[i], WeightOf);
        WrapAdd(Sum(gone, SizeOf), queue[i].size);
        WrapAdd(Sum(gone, WeightOf), Weight(queue[i].size));
        gone := gone + [queue[i]];
        bytes := Wrap(bytes + queue[i].size);
        weight := Wrap(weight + Weight(queue[i].size));
        heaviest := heaviest || queue[i].size == largest;
      }
    }
    assert queue[..|queue|] == queue;
  }

  method ReleaseKeys(k: Keys, reserved: set<Key>, gone: seq<File>) returns (left: set<Key>)
    ensures left == reserved - KeysOf(k, gone)
  {
    left := reserved;
    for i := 0 to |gone|
      invariant left == reserved - KeysOf(k, gone[..i])
    {
      assert gone[..i + 1] == gone[..i] + [gone[i]];
      assert KeysOf(k, gone[..i + 1]) == KeysOf(k, gone[..i]) + {k.key(gone[i].destination)};
      left := left - {k.key(gone[i].destination)};
    }
    assert gone[..|gone|] == gone;
  }

  /** Groups of counters and maps the plan's members fall into. */
  datatype Totals = Totals(bytes: nat, files: nat, completedBytes: nat, completedFiles: nat, largest: nat)
  datatype Progress = Progress(highWater: map<nat, nat>, attemptBytes: map<nat, nat>, attemptCounts: map<nat, nat>)
  datatype Ledger = Ledger(retained: seq<ItemResult>, counters: Counters, outcomes: Outcomes)
  datatype History = History(done: seq<Done>, begun: map<nat, nat>, writes: seq<Write>, restored: set<nat>)

  class LiveCopyPlan {
    const keys: Keys
    var directories: seq<Directory>
    var materialized: nat
    var roots: seq<Path>
    const root: Path
    const operation: FileOperation
    var pending: seq<File>
    var active: seq<File>
    var parked: seq<ParkedFile>
    var reserved: set<Key>
    var totals: Totals
    var nextId: nat
    var progress: Progress
    var ledger: Ledger
    ghost var history: History

    /** The object's value. */
    ghost function Value(): Plan
      reads this
    {
      Plan(directories, materialized, roots, root, operation, pending, active, parked, reserved,
           totals.bytes, totals.files, totals.completedBytes, totals.completedFiles, totals.largest, nextId,
           ledger.retained, progress.highWater, progress.attemptBytes, progress.attemptCounts,
           ledger.counters, ledger.outcomes, history.done, history.begun, history.writes, history.restored)
    }

    ghost predicate Valid()
      reads this
    {
      Inv(keys, Value())
    }

    /** Construction from a screened plan; `Build` below refuses the others. */
    constructor (k: Keys, p: CopyPlan, files: seq<File>, taken: set<Key>, next: nat, weight: nat)
      requires Screen(k, k.key, p.files, {}) == Accepted(files, taken)
      requires next == NextId(files, 1) && weight == Wrap(Sum(files, WeightOf))
      ensures keys == k && Create(k, p) == Some(Value())
    {
      keys, root, operation := k, p.root, p.operation;
      directories, materialized, roots := p.directories, 0, p.roots;
      pending, active, parked, reserved := files, [], [], taken;
      totals, nextId := Totals(p.totalBytes, |files|, 0, 0, p.largest), next;
      progress := Progress(map[], map[], map[]);
      ledger := Ledger([], Counters(0, 0, 0, weight), Outcomes(0, 0, 0, 0));
      history := History([], FirstAttempts(files), [], {});
      new;
      RecordPlanningFailures(p.failures);
    }

    /** Build a live plan; None where the constructor throws. */
    static method Build(k: Keys, p: CopyPlan) returns (r: Option<LiveCopyPlan>)
      ensures r.Some? <==> Placeable(k, k.key, p.files, {})
      ensures r.Some? ==> fresh(r.value) && r.value.keys == k && Create(k, p) == Some(r.value.Value())
      ensures r.Some? ==> (r.value.Valid() <==> Identified(p) && Declared(p) && Incoming(p) <= MAX64)
    {
      hide Inv, Screen;
      ScreenExact(k, k.key, p.files, {});
      var screened := ScreenAll(k, k.key, p.files, {});
      if screened.Refused? { return None; }
      var next, weight := 1, 0;
      var files := screened.files;
      for i := 0 to |files|
        invariant NextId(files, 1) == NextId(files[i..], next)
        invariant weight == Wrap(Sum(files[..i], WeightOf))
      {
        assert files[i..][1..] == files[i + 1..] && files[..i + 1] == files[..i] + [files[i]];
        SumSnoc(files[..i], files[i], WeightOf);
        WrapAdd(Sum(files[..i], WeightOf), Weight(files[i].size));
        if files[i].id == MAX64 { next := 0; } else if next != 0 { next := Max(next, files[i].id + 1); }
        weight := Wrap(weight + Weight(files[i].size));
      }
      assert files[|files|..] == [] && files[..|files|] == files;
      var plan := new LiveCopyPlan(k, p, files, screened.keys, next, weight);
      CreateKeepsIff(k, p);
      r := Some(plan);
    }

    // ---- append ----

    method RecordPlanningFailures(fs: seq<Failure>)
      modifies this`ledger, this`history
      ensures Value() == RecordFailures(old(Value()), fs)
    {
      var c := ledger.counters;
      ledger := Ledger(ledger.retained + ScanResults(fs),
                       c.(total := Wrap(c.total + |fs|), weight := Wrap(c.weight + |fs|)),
                       ledger.outcomes.(failed := ledger.outcomes.failed + |fs|));
      history := history.(done := history.done + ScanDones(fs));
    }

    /** Whether the weights fit on top of the current total, file by file. */
    method WeightsFit(files: seq<File>) returns (fit: bool, sum: nat)
      requires ledger.counters.total <= MAX64
      ensures fit <==> ledger.counters.total + Sum(files, WeightOf) <= MAX64
      ensures fit ==> sum == Sum(files, WeightOf)
    {
      sum := 0;
      for i := 0 to |files|
        invariant sum == Sum(files[..i], WeightOf) && ledger.counters.total + sum <= MAX64
      {
        assert files[..i + 1] == files[..i] + [files[i]] && files == files[..i + 1] + files[i + 1..];
        SumSnoc(files[..i], files[i], WeightOf);
        SumConcat(files[..i + 1], files[i + 1..], WeightOf);
        if Weight(files[i].size) > MAX64 - ledger.counters.total - sum { return false, 0; }
        sum := sum + Weight(files[i].size);
      }
      assert files[..|files|] == files;
      fit := true;
    }

    /** The commit of a screened plan. */
    method CommitPlan(p: CopyPlan, files: seq<File>, keysTaken: set<Key>, incoming: nat)
      requires |files| == |p.files| && incoming == Sum(files, WeightOf)
      modifies this
      ensures Value() == Commit(old(Value()), p, files, keysTaken)
    {
      var added := Numbered(files, nextId);
      EnqueueFiles(p, added, keysTaken);
      var c := ledger.counters;
      ledger := ledger.(counters := c.(total := c.total + incoming));
      totals := totals.(bytes := totals.bytes + p.totalBytes, files := totals.files + |files|,
                        largest := Max(totals.largest, p.largest));
      RecordPlanningFailures(p.failures);
    }

    method EnqueueFiles(p: CopyPlan, added: seq<File>, keysTaken: set<Key>)
      modifies this
      ensures var s := old(Value());
        Value() == s.(directories := s.directories + p.directories, roots := s.roots + p.roots,
                      pending := s.pending + added, reserved := keysTaken, nextId := IdAfter(s.nextId, |added|),
                      begun := s.begun + FirstAttempts(added))
    {
      directories, roots := directories + p.directories, roots + p.roots;
      pending, reserved, nextId := pending + added, keysTaken, IdAfter(nextId, |added|);
      history := history.(begun := history.begun + FirstAttempts(added));
    }

    /** Append a plan, or refuse it and leave everything as it was. */
    method AppendPlan(p: CopyPlan, now: Path -> Key, allowDrained: bool) returns (r: AppendResult)
      requires Valid()
      modifies this
      ensures (Value(), r) == Append(keys, now, old(Value()), p, allowDrained)
      ensures r != Appended ==> Value() == old(Value())
      ensures Valid() <==> r != Appended || (Declared(p) && old(ledger.counters.total) + Incoming(p) <= MAX64)
    {
      hide Inv, Screen, Commit, Refusal;
      AppendKeepsIff(keys, now, Value(), p, allowDrained);
      AppendedShape(keys, now, Value(), p, allowDrained);
      var refusal := CheckIncoming(p, allowDrained);
      if refusal.Some? { return refusal.value; }
      var screened := ScreenAll(keys, now, p.files, reserved);
      if screened.Refused? { return screened.reason; }
      ScreenedSums(keys, now, p.files, reserved);
      CommitPlan(p, screened.files, screened.keys, Weights(screened.files));
      r := Appended;
    }

    /** The checks that precede the screening of destinations, in the code's order. */
    method CheckIncoming(p: CopyPlan, allowDrained: bool) returns (r: Option<AppendResult>)
      requires Valid()
      ensures r == Refusal(keys, Value(), p, allowDrained)
    {
      Bounded(keys, Value());
      hide Inv;
      if !allowDrained && pending == [] && active == [] && parked == [] { return Some(Drained); }
      if keys.key(p.root) != keys.key(root) { return Some(DifferentDestination); }
      if p.operation != operation { return Some(DifferentOperation); }
      if p.totalBytes > MAX64 - totals.bytes || |p.files| > MAX64 - totals.files { return Some(SizeOverflow); }
      if p.files != [] {
        if nextId == 0 || |p.files| > MAX64 - nextId + 1 { return Some(InternalFailure); }
      }
      var fit, _ := WeightsFit(p.files);
      r := if fit then None else Some(SizeOverflow);
    }

    static function Weights(files: seq<File>): nat { Sum(files, WeightOf) }

    // ---- queue edits ----

    method MovePendingFile(id: nat, to: nat) returns (ok: bool)
      requires Valid()
      modifies this`pending
      ensures Valid()
      ensures ok <==> HasId(old(pending), id) && to < |old(pending)|
      ensures pending == if ok then MoveTo(old(pending), Find(old(pending), id), to) else old(pending)
    {
      hide Inv;
      var from := IndexOf(pending, id);
      if from == |pending| || to >= |pending| { return false; }
      ReorderKeeps(keys, Value(), MoveTo(pending, from, to));
      var rest := RemoveAt(pending, from);
      pending := rest[..to] + [pending[from]] + rest[to..];
      ok := true;
    }

    /** Move every chosen item up past the unchosen one before it. */
    method MovePendingFilesUp(ids: set<nat>) returns (changed: bool)
      requires Valid()
      modifies this`pending
      ensures Valid() && pending == Up(old(pending), ids)
      ensures changed <==> !Gathered(old(pending), ids)
    {
      hide Inv;
      UpKeepsOrders(pending, ids);
      ReorderKeeps(keys, Value(), Up(pending, ids));
      pending, changed := LiftChosen(pending, ids);
    }

    /** Move every chosen item down past the unchosen one after it. */
    method MovePendingFilesDown(ids: set<nat>) returns (changed: bool)
      requires Valid()
      modifies this`pending
      ensures Valid() && pending == Down(old(pending), ids)
      ensures changed <==> !Gathered(Reverse(old(pending)), ids)
    {
      hide Inv;
      DownBag(pending, ids);
      ReorderKeeps(keys, Value(), Down(pending, ids));
      pending, changed := LowerChosen(pending, ids);
    }

    /** Put one page of the queue in the requested order, if the request is exactly a
        reordering of the items now on that page; otherwise change nothing. */
    method ReorderPendingPage(offset: nat, ids: seq<nat>) returns (ok: bool)
      requires Valid()
      modifies this`pending
      ensures Valid()
      ensures ok <==> Reorders(old(pending), offset, ids)
      ensures if ok then PageOrdered(old(pending), pending, offset, ids) else pending == old(pending)
    {
      hide Inv;
      InvPending(keys, Value());
      var arranged;
      ok, arranged := ArrangePage(pending, offset, ids);
      if ok {
        PageOrderPermutes(pending, arranged, offset, ids);
        ReorderKeeps(keys, Value(), arranged);
        pending := arranged;
      }
    }

    method DropInFlightOf(id: nat)
      modifies this`ledger, this`progress
      ensures Value() == DropInFlight(old(Value()), id)
    {
      var c := ledger.counters;
      if id in progress.highWater {
        ledger := ledger.(counters := c.(weight := c.weight - Min(c.weight, progress.highWater[id])));
      }
      progress := Progress(progress.highWater - {id}, progress.attemptBytes - {id}, progress.attemptCounts - {id});
    }

    method DropInFlightOfAll(files: seq<File>)
      modifies this`ledger, this`progress
      ensures Value() == DropAll(old(Value()), files)
    {
      for i := 0 to |files|
        invariant Value() == DropAll(old(Value()), files[..i])
      {
        assert files[..i + 1] == files[..i] + [files[i]];
        DropAllSnoc(old(Value()), files[..i], files[i]);
        DropInFlightOf(files[i].id);
      }
      assert files[..|files|] == files;
    }

    method RemovePendingFiles(ids: set<nat>) returns (count: nat)
      requires Valid()
      modifies this
      ensures Valid() && Value() == Remove(keys, old(Value()), ids)
      ensures count == |Selected(old(pending), ids)|
    {
      hide Inv, Remove;
      RemoveKeeps(keys, Value(), ids);
      RemoveShape(keys, Value(), ids);
      var gone, bytes, weight, heaviest := CollectRemovals(pending, ids, totals.largest);
      if gone == [] { return 0; }
      reserved := ReleaseKeys(keys, reserved, gone);
      totals := totals.(bytes := totals.bytes - Min(totals.bytes, bytes), files := totals.files - Min(totals.files, |gone|));
      var c := ledger.counters;
      ledger := ledger.(counters := c.(total := c.total - Min(c.total, weight)));
      assert Value() == Discounted(keys, old(Value()), gone);
      DropInFlightOfAll(gone);
      pending := Kept(pending, ids);
      if heaviest {
        var largest := Heaviest(pending + active);
        totals := totals.(largest := largest);
      }
      count := |gone|;
    }

    // ---- transfer between lists ----

    method AcquireNext() returns (r: Option<File>)
      requires Valid()
      modifies this
      ensures Valid() && Value() == Acquire(old(Value()))
      ensures r == if old(pending) == [] then None else Some(old(pending)[0])
    {
      hide Inv;
      AcquireKeeps(keys, Value());
      if pending == [] { return None; }
      var f := pending[0];
      active, pending := active + [f], pending[1..];
      progress := progress.(attemptBytes := progress.attemptBytes - {f.id});
      r := Some(f);
    }

    method ReleaseActive(id: nat)
      requires Valid()
      modifies this
      ensures Valid() && Value() == Release(old(Value()), id)
    {
      hide Inv;
      ReleaseKeeps(keys, Value(), id);
      var i := IndexOf(active, id);
      if i == |active| { return; }
      pending, active := [active[i]] + pending, RemoveAt(active, i);
    }

    method ParkActive(id: nat, hresult: int, preexisted: bool, action: RecoveryAction) returns (ok: bool)
      requires Valid()
      modifies this
      ensures Valid() && Value() == Park(old(Value()), id, hresult, preexisted, action)
      ensures ok <==> HasId(old(active), id)
    {
      hide Inv;
      ParkKeeps(keys, Value(), id, hresult, preexisted, action);
      var i := IndexOf(active, id);
      if i == |active| { return false; }
      var f, attempts := active[i], Get(progress.attemptCounts, id, 1);
      parked := parked + [ParkedFile(f, Incident(f.id, hresult, f.source, f.destination, preexisted, action, attempts), None)];
      active := RemoveAt(active, i);
      ok := true;
    }

    method ParkActiveSourceRemoval(id: nat, hresult: int, preexisted: bool, sourcePrint: Fingerprint,
                                   destinationPrint: Fingerprint) returns (ok: bool)
      requires Valid()
      modifies this
      ensures Valid() && Value() == ParkRemoval(old(Value()), id, hresult, preexisted, sourcePrint, destinationPrint)
      ensures ok <==> HasId(old(active), id)
    {
      hide Inv;
      ParkRemovalKeeps(keys, Value(), id, hresult, preexisted, sourcePrint, destinationPrint);
      var i := IndexOf(active, id);
      if i == |active| { return false; }
      var f, attempts := active[i], Get(progress.attemptCounts, id, 1);
      var recovery := Recovery(f.id, hresult, f.source, f.destination, preexisted, attempts, sourcePrint, destinationPrint);
      parked := parked + [ParkedFile(f, Incident(f.id, hresult, f.source, f.destination, preexisted,
                                                 RetrySourceRemoval, attempts), Some(recovery))];
      active := RemoveAt(active, i);
      ok := true;
    }

    method RestoreParkedSourceRemoval(archived: Recovery) returns (ok: bool)
      requires Valid() && archived.attempts <= MAX32
      modifies this
      ensures Valid() && Value() == Restore(keys, old(Value()), archived)
      ensures ok <==> CanRestore(keys, old(Value()), archived)
    {
      hide Inv, Restore;
      RestoreKeeps(keys, Value(), archived);
      RestoreRefused(keys, Value(), archived);
      ok := RestoreFits(archived);
      if ok { AdmitRestored(archived); }
    }

    method RestoreFits(archived: Recovery) returns (ok: bool)
      requires Valid()
      ensures ok <==> CanRestore(keys, Value(), archived)
    {
      Bounded(keys, Value());
      hide Inv;
      if archived.source == "" || archived.destination == "" || nextId == 0 { return false; }
      var size, weight, c := archived.sourcePrint.size, Weight(archived.sourcePrint.size), ledger.counters;
      if weight > MAX64 - c.total || weight > MAX64 - c.weight || size > MAX64 - totals.bytes || totals.files == MAX64 {
        return false;
      }
      var key := keys.key(archived.destination);
      ok := key != [] && key !in reserved;
    }

    /** Park the restored item under a new id. */
    method ParkRestored(archived: Recovery, attempts: nat)
      requires attempts == Max(archived.attempts, 1)
      modifies this`parked, this`progress, this`history
      ensures var s, id, size := old(Value()), old(nextId), archived.sourcePrint.size;
        Value() == s.(parked := s.parked + [ParkedFile(
                        File(id, archived.source, archived.destination, size, None),
                        Incident(id, archived.hresult, archived.source, archived.destination, archived.preexisted,
                                 RetrySourceRemoval, attempts),
                        Some(archived.(fileId := id, attempts := attempts)))],
                      highWater := s.highWater[id := Weight(size)], attemptCounts := s.attemptCounts[id := attempts],
                      begun := s.begun[id := attempts], restored := s.restored + {id})
    {
      var id, size := nextId, archived.sourcePrint.size;
      var incident := Incident(id, archived.hresult, archived.source, archived.destination, archived.preexisted,
                               RetrySourceRemoval, attempts);
      parked := parked + [ParkedFile(File(id, archived.source, archived.destination, size, None), incident,
                                     Some(archived.(fileId := id, attempts := attempts)))];
      progress := progress.(highWater := progress.highWater[id := Weight(size)],
                            attemptCounts := progress.attemptCounts[id := attempts]);
      history := history.(begun := history.begun[id := attempts], restored := history.restored + {id});
    }

    method AdmitRestored(archived: Recovery)
      requires CanRestore(keys, Value(), archived)
      modifies this
      ensures Value() == Restore(keys, old(Value()), archived)
    {
      ParkRestored(archived, if archived.attempts == 0 then 1 else archived.attempts);
      var size, weight, c := archived.sourcePrint.size, Weight(archived.sourcePrint.size), ledger.counters;
      reserved, nextId := reserved + {keys.key(archived.destination)}, if nextId == MAX64 then 0 else nextId + 1;
      ledger := ledger.(counters := c.(total := c.total + weight, weight := c.weight + weight));
      totals := totals.(bytes := totals.bytes + size, files := totals.files + 1, largest := Max(totals.largest, size));
    }

    method ParkedSourceRemovals() returns (r: seq<Recovery>)
      ensures r == Removals(parked)
    {
      r := [];
      for i := 0 to |parked|
        invariant Removals(parked) == r + Removals(parked[i..])
      {
        var p := parked[i];
        assert parked[i..][0] == p && parked[i..][1..] == parked[i + 1..];
        if p.recovery.Some? {
          r := r + [p.recovery.value.(fileId := p.incident.fileId, hresult := p.incident.hresult,
                                      attempts := p.incident.attempts)];
        }
      }
      assert parked[|parked|..] == [];
    }

    /** A further attempt begins. */
    method CountAttempt(id: nat, attempts: nat)
      modifies this`progress, this`history
      ensures var s := old(Value());
        Value() == s.(attemptCounts := s.attemptCounts[id := attempts], begun := s.begun[id := Get(s.begun, id, 0) + 1])
    {
      progress := progress.(attemptCounts := progress.attemptCounts[id := attempts]);
      history := history.(begun := history.begun[id := Get(history.begun, id, 0) + 1]);
    }

    method UnparkFile(id: nat) returns (ok: bool)
      requires Valid()
      modifies this
      ensures Valid() && Value() == Unpark(old(Value()), id)
      ensures ok <==> (HasId(ParkedFiles(old(parked)), id)
                       && old(parked)[Find(ParkedFiles(old(parked)), id)].incident.action == RetryTransfer)
    {
      hide Inv;
      UnparkKeeps(keys, Value(), id);
      var i := IndexOf(ParkedFiles(parked), id);
      if i == |parked| || parked[i].incident.action != RetryTransfer { return false; }
      CountAttempt(id, Bump(parked[i].incident.attempts));
      pending, parked := [parked[i].file] + pending, RemoveAt(parked, i);
      progress := progress.(attemptBytes := progress.attemptBytes - {id});
      ok := true;
    }

    method BeginParkedRetry(id: nat, action: RecoveryAction) returns (ok: bool)
      requires Valid()
      modifies this
      ensures Valid() && Value() == BeginRetry(old(Value()), id, action)
      ensures ok <==> (HasId(ParkedFiles(old(parked)), id)
                       && old(parked)[Find(ParkedFiles(old(parked)), id)].incident.action == action)
    {
      hide Inv;
      BeginRetryKeeps(keys, Value(), id, action);
      var i := IndexOf(ParkedFiles(parked), id);
      if i == |parked| || parked[i].incident.action != action { return false; }
      var p, next := parked[i], Bump(parked[i].incident.attempts);
      CountAttempt(id, next);
      parked := parked[i := p.(incident := p.incident.(attempts := next))];
      ok := true;
    }

    method RecordParkedRetryFailure(id: nat, hresult: int) returns (ok: bool)
      requires Valid()
      modifies this
      ensures Valid() && Value() == RetryFailed(old(Value()), id, hresult)
      ensures ok <==> HasId(ParkedFiles(old(parked)), id)
    {
      hide Inv;
      RetryFailedKeeps(keys, Value(), id, hresult);
      var i := IndexOf(ParkedFiles(parked), id);
      if i == |parked| { return false; }
      var p := parked[i];
      parked := parked[i := p.(incident := p.incident.(hresult := hresult))];
      ok := true;
    }

    // ---- terminal outcomes ----

    /** Settle the accounts of a file that is still in its list. */
    method ResolveAccounts(f: File, outcome: ItemOutcome, hresult: int, preexisted: bool)
      modifies this`ledger, this`progress, this`reserved, this`totals, this`history
      ensures Value() == Resolve(keys, old(Value()), f, outcome, hresult, preexisted)
    {
      var good, c := Successful(outcome), ledger.counters;
      var weight, mark := Weight(f.size), Get(progress.highWater, f.id, 0);
      var retained := ledger.retained;
      if outcome != Succeeded {
        retained := retained + [ItemResult(f.id, outcome, hresult, f.source, f.destination, preexisted)];
      }
      progress := Progress(progress.highWater - {f.id}, progress.attemptBytes - {f.id}, progress.attemptCounts - {f.id});
      ledger := Ledger(retained,
                       c.(weight := Wrap(c.weight + (weight - Min(weight, mark))),
                          succeeded := if good then Wrap(c.succeeded + f.size) else c.succeeded),
                       CountOutcome(ledger.outcomes, outcome));
      history := history.(done := history.done + [Done(f, outcome, hresult, preexisted, false)]);
      if good { AddCompleted(f.size); } else { reserved := reserved - {keys.key(f.destination)}; }
    }

    /** The older completion counters, which never pass the totals. */
    method AddCompleted(size: nat)
      modifies this`totals
      ensures var s := old(Value());
        Value() == s.(completedBytes := s.completedBytes + Min(size, Monus(s.totalBytes, s.completedBytes)),
                      completedFiles := if s.completedFiles < s.totalFiles then s.completedFiles + 1 else s.completedFiles)
    {
      totals := totals.(completedBytes := totals.completedBytes + Min(size, Monus(totals.bytes, totals.completedBytes)),
                        completedFiles := if totals.completedFiles < totals.files then totals.completedFiles + 1
                                          else totals.completedFiles);
    }

    method ResolvePendingFile(id: nat, outcome: ItemOutcome, hresult: int, preexisted: bool) returns (ok: bool)
      requires Valid()
      modifies this
      ensures Valid() && Value() == ResolvePending(keys, old(Value()), id, outcome, hresult, preexisted)
      ensures ok <==> HasId(old(pending), id)
    {
      hide Inv, Resolve;
      ResolveQueuedKeeps(keys, Value(), id, outcome, hresult, preexisted);
      var i := IndexOf(pending, id);
      if i == |pending| { return false; }
      ResolveAccounts(pending[i], outcome, hresult, preexisted);
      pending := RemoveAt(pending, i);
      ok := true;
    }

    method ResolveActiveFile(id: nat, outcome: ItemOutcome, hresult: int, preexisted: bool) returns (ok: bool)
      requires Valid()
      modifies this
      ensures Valid() && Value() == ResolveActive(keys, old(Value()), id, outcome, hresult, preexisted)
      ensures ok <==> HasId(old(active), id)
    {
      hide Inv, Resolve;
      ResolveActiveKeeps(keys, Value(), id, outcome, hresult, preexisted);
      var i := IndexOf(active, id);
      if i == |active| { return false; }
      ResolveAccounts(active[i], outcome, hresult, preexisted);
      active := RemoveAt(active, i);
      ok := true;
    }

    method ResolveParkedFile(id: nat, outcome: ItemOutcome, hresult: int, preexisted: bool) returns (ok: bool)
      requires Valid()
      modifies this
      ensures Valid() && Value() == ResolveParked(keys, old(Value()), id, outcome, hresult, preexisted)
      ensures ok <==> HasId(ParkedFiles(old(parked)), id)
    {
      hide Inv, Resolve;
      ResolveParkedKeeps(keys, Value(), id, outcome, hresult, preexisted);
      var i := IndexOf(ParkedFiles(parked), id);
      if i == |parked| { return false; }
      ResolveAccounts(parked[i].file, outcome, hresult, preexisted);
      parked := RemoveAt(parked, i);
      ok := true;
    }

    /** Fail every pending item strictly inside a directory; returns how many. */
    method FailPendingUnder(directory: Path, hresult: int) returns (count: nat)
      requires Valid()
      modifies this
      ensures Valid() && Value() == FailUnder(keys, old(Value()), directory, hresult, 0)
      ensures count == |old(pending)| - |pending|
    {
      hide Inv, Resolve;
      var prefix := keys.key(directory);
      if prefix == [] {
        FailUnderNothing(keys, Value(), directory, hresult, 0);
        return 0;
      }
      count := 0;
      var i := 0;
      while i < |pending|
        invariant i <= |pending| && Valid() && count == |old(pending)| - |pending|
        invariant FailUnder(keys, Value(), directory, hresult, i) == FailUnder(keys, old(Value()), directory, hresult, 0)
        decreases |pending| - i
      {
        if !(prefix < keys.key(pending[i].destination)) {
          i := i + 1;
          continue;
        }
        ResolvePendingKeeps(keys, Value(), i, Failed, hresult, false);
        ResolveAccounts(pending[i], Failed, hresult, false);
        pending := RemoveAt(pending, i);
        count := count + 1;
      }
    }

    method CompleteActive(id: nat)
      requires Valid()
      modifies this
      ensures Valid() && Value() == Complete(old(Value()), id)
    {
      hide Inv;
      CompleteKeeps(keys, Value(), id);
      var i := IndexOf(active, id);
      if i == |active| { return; }
      var f, c := active[i], ledger.counters;
      var weight, mark := Weight(f.size), Get(progress.highWater, id, 0);
      AddCompleted(f.size);
      progress := progress.(highWater := progress.highWater - {id}, attemptBytes := progress.attemptBytes - {id});
      ledger := ledger.(counters := c.(weight := Wrap(c.weight + (weight - Min(weight, mark))),
                                       succeeded := Wrap(c.succeeded + f.size)),
                        outcomes := CountOutcome(ledger.outcomes, Succeeded));
      active := RemoveAt(active, i);
      history := history.(done := history.done + [Done(f, Succeeded, 0, false, false)]);
    }

    method SkipActive(id: nat) returns (ok: bool)
      requires Valid()
      modifies this
      ensures Valid() && Value() == Skip(keys, old(Value()), id)
      ensures ok <==> HasId(old(active), id)
    {
      hide Inv;
      SkipKeeps(keys, Value(), id);
      var i := IndexOf(active, id);
      if i == |active| { return false; }
      var f, heaviest := active[i], active[i].size == totals.largest;
      TakeOutActive(i);
      DropInFlightOf(id);
      if heaviest {
        var largest := Heaviest(pending + active);
        totals := totals.(largest := largest);
      }
      ok := true;
    }

    /** Take an active item and what it weighed out of the plan. */
    method TakeOutActive(i: nat)
      requires i < |active|
      modifies this`reserved, this`ledger, this`totals, this`active
      ensures var s, f := old(Value()), old(active)[i];
        Value() == s.(reserved := s.reserved - {keys.key(f.destination)},
                      counters := s.counters.(total := s.counters.total - Min(s.counters.total, Weight(f.size))),
                      totalBytes := s.totalBytes - Min(s.totalBytes, f.size), totalFiles := Monus(s.totalFiles, 1),
                      active := RemoveAt(s.active, i))
    {
      var f, c := active[i], ledger.counters;
      reserved, active := reserved - {keys.key(f.destination)}, RemoveAt(active, i);
      ledger := ledger.(counters := c.(total := c.total - Min(c.total, Weight(f.size))));
      totals := totals.(bytes := totals.bytes - Min(totals.bytes, f.size),
                        files := if totals.files != 0 then totals.files - 1 else 0);
    }

    // ---- progress, destinations, directories ----

    method RecordAttemptBytes(id: nat, cumulative: nat)
      requires Valid()
      modifies this
      ensures Valid() && Value() == RecordBytes(old(Value()), id, cumulative)
    {
      hide Inv;
      RecordBytesKeeps(keys, Value(), id, cumulative);
      var i := IndexOf(active, id);
      if i == |active| { return; }
      var last, mark, c := Get(progress.attemptBytes, id, 0), Get(progress.highWater, id, 0), ledger.counters;
      var delta := if cumulative >= last then cumulative - last else cumulative;
      var next := HighWater(mark, active[i].size, cumulative);
      progress := progress.(attemptBytes := progress.attemptBytes[id := cumulative],
                            highWater := progress.highWater[id := next]);
      ledger := ledger.(counters := c.(physical := Wrap(c.physical + delta), weight := Wrap(c.weight + (next - mark))));
      history := history.(writes := history.writes + [Write(id, delta)]);
    }

    /** Retarget an active item to the first numbered alternative that is free. */
    method RedirectActiveDestination(id: nat, around: Surroundings) returns (to: Option<Path>)
      requires Valid()
      modifies this
      ensures Valid() && (Value(), to) == Redirect(keys, old(Value()), id, around)
    {
      hide Inv;
      RedirectKeeps(keys, Value(), id, around);
      var i := IndexOf(active, id);
      if i == |active| { return None; }
      var f := active[i];
      var n := 2;
      while n <= LAST_ALTERNATE
        invariant 2 <= n <= LAST_ALTERNATE + 1 && Value() == old(Value())
        invariant FirstFree(keys, Value(), around, f.destination, 2) == FirstFree(keys, Value(), around, f.destination, n)
      {
        var candidate := around.alternate(f.destination, n);
        var key := keys.key(candidate);
        if key !in reserved && around.probe(candidate) == Free {
          reserved := reserved + {key} - {keys.key(f.destination)};
          active := active[i := f.(destination := candidate)];
          return Some(candidate);
        }
        n := n + 1;
      }
      to := None;
    }

    method MarkDirectoriesMaterialized(through: nat)
      requires Valid()
      modifies this`materialized
      ensures Valid() && Value() == MarkMaterialized(old(Value()), through)
    {
      hide Inv;
      MarkMaterializedKeeps(keys, Value(), through);
      materialized := Max(materialized, Min(through, |directories|));
    }
  }

  lemma RestoreRefused(k: Keys, s: Plan, r: Recovery)
    ensures !CanRestore(k, s, r) ==> Restore(k, s, r) == s
  {
  }

  lemma Bounded(k: Keys, s: Plan)
    requires Inv(k, s)
    ensures s.counters.total <= MAX64 && s.counters.weight <= MAX64 && s.totalBytes <= MAX64
    ensures s.totalFiles <= MAX64 && s.nextId <= MAX64
  {
    ResolvedAtMostTotal(k, s);
    SizeAtMostWeight(InFlight(s));
    DoneAtMostWeight(s.done);
    SettledCount(s.done);
  }

  lemma InvPending(k: Keys, s: Plan)
    requires Inv(k, s)
    ensures DistinctBy(s.pending, IdOf)
  {
    assert multiset(s.pending) <= multiset(All(s));
    DistinctSubset(All(s), s.pending, IdOf);
  }

  lemma RemoveShape(k: Keys, s: Plan, ids: set<nat>)
    ensures var gone := Selected(s.pending, ids);
      Remove(k, s, ids) == if gone == [] then s
        else
          var left := Kept(s.pending, ids);
          DropAll(Discounted(k, s, gone), gone)
            .(pending := left,
              largest := if exists f :: f in gone && f.size == s.largest then Largest(left + s.active) else s.largest)
  {
  }
}
