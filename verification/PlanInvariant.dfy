/** What every operation of the live plan keeps: one coupled invariant over ids, keys,
    weights, bytes, marks, attempts and outcomes. */
module PlanInvariant {
  import opened Items
  import opened Sequences
  import opened LivePlan

  // ---- the terminal log ----

  /** The queued items among the terminal outcomes. */
  function Settled(done: seq<Done>): seq<File> {
    if done == [] then []
    else Settled(Front(done)) + if Last(done).scanned then [] else [Last(done).file]
  }

  /** The terminal items whose destination was produced. */
  function Produced(done: seq<Done>): seq<File> {
    if done == [] then []
    else Produced(Front(done)) + if Successful(Last(done).outcome) then [Last(done).file] else []
  }

  function ResultOf(d: Done): ItemResult {
    ItemResult(d.file.id, d.outcome, d.hresult, d.file.source, d.file.destination, d.preexisted)
  }

  function Results(done: seq<Done>): seq<ItemResult> {
    if done == [] then []
    else Results(Front(done)) + if Last(done).outcome == Succeeded then [] else [ResultOf(Last(done))]
  }

  lemma DoneSnoc(done: seq<Done>, d: Done)
    ensures Settled(done + [d]) == Settled(done) + if d.scanned then [] else [d.file]
    ensures Produced(done + [d]) == Produced(done) + if Successful(d.outcome) then [d.file] else []
    ensures Results(done + [d]) == Results(done) + if d.outcome == Succeeded then [] else [ResultOf(d)]
  {
    assert Front(done + [d]) == done;
  }

  lemma ScansSnoc(fs: seq<Failure>)
    requires fs != []
    ensures ScanDones(fs) == ScanDones(Front(fs)) + [ScanDone(Last(fs))]
    ensures ScanResults(fs) == ScanResults(Front(fs)) + [ScanResult(Last(fs))]
  {
  }

  lemma {:induction false} DoneScans(done: seq<Done>, fs: seq<Failure>)
    ensures Settled(done + ScanDones(fs)) == Settled(done)
    ensures Produced(done + ScanDones(fs)) == Produced(done)
    ensures Results(done + ScanDones(fs)) == Results(done) + ScanResults(fs)
  {
    if fs == [] {
      assert done + ScanDones(fs) == done;
    } else {
      var most := Front(fs);
      DoneScans(done, most);
      DoneSnoc(done + ScanDones(most), ScanDone(Last(fs)));
      ScansSnoc(fs);
      hide ScanDones, ScanResults, Settled, Produced, Results;
      assert done + ScanDones(fs) == done + ScanDones(most) + [ScanDone(Last(fs))];
    }
  }

  lemma {:induction false} SettledHas(done: seq<Done>, d: Done)
    requires d in done && !d.scanned
    ensures d.file in Settled(done)
  {
    if Last(done) != d { SettledHas(Front(done), d); }
  }

  lemma {:induction false} ProducedHas(done: seq<Done>, d: Done)
    requires d in done && Successful(d.outcome)
    ensures d.file in Produced(done)
  {
    if Last(done) != d { ProducedHas(Front(done), d); }
  }

  function DoneWeight(d: Done): nat { Weight(d.file.size) }
  function DoneSize(d: Done): nat { d.file.size }
  function DoneBytes(d: Done): nat { if Successful(d.outcome) then d.file.size else 0 }
  function DoneGood(d: Done): nat { if Successful(d.outcome) then 1 else 0 }
  function Ended(o: ItemOutcome): Done -> nat { (d: Done) => if d.outcome == o then 1 else 0 }

  lemma {:induction false} ScanSum(fs: seq<Failure>, f: Done -> nat, each: nat)
    requires forall x: Failure :: f(ScanDone(x)) == each
    ensures Sum(ScanDones(fs), f) == each * |fs|
  {
    if fs != [] {
      ScanSum(fs[1..], f, each);
      assert ScanDones(fs)[1..] == ScanDones(fs[1..]);
    }
  }

  // ---- the physical write log ----

  function BytesTo(id: nat): Write -> nat { (w: Write) => if w.id == id then w.bytes else 0 }
  function BytesOf(w: Write): nat { w.bytes }
  function Written(writes: seq<Write>, id: nat): nat { Sum(writes, BytesTo(id)) }

  // ---- derived collections ----

  function All(s: Plan): seq<File> { InFlight(s) + Settled(s.done) }

  /** The items whose destination the plan holds reserved. */
  function Holders(s: Plan): seq<File> { InFlight(s) + Produced(s.done) }

  function IdSet(files: seq<File>): set<nat> { set f | f in files :: f.id }

  function KeyOf(k: Keys): File -> Key { (f: File) => k.key(f.destination) }

  function MarkOf(marks: map<nat, nat>): File -> nat { (f: File) => Get(marks, f.id, 0) }

  // ---- the invariant ----

  /** Ids are unique over unresolved and terminal items, and all lie below the next one
      (which is 0 once the 64-bit range is used up). */
  ghost predicate IdsSound(s: Plan) {
    && DistinctBy(All(s), IdOf)
    && s.nextId <= MAX64
    && (forall f :: f in All(s) ==> f.id <= MAX64 && (s.nextId != 0 ==> f.id < s.nextId))
  }

  /** Reservations are exactly the pairwise distinct keys of the holders. */
  ghost predicate KeysExact(k: Keys, s: Plan) {
    && DistinctBy(Holders(s), KeyOf(k))
    && s.reserved == KeysOf(k, Holders(s))
  }

  /** Weight is conserved: the total is unresolved plus terminal weight, and the resolved
      weight is terminal weight plus the marks of items in flight. */
  ghost predicate WeightsConserved(s: Plan) {
    && s.counters.total == Sum(InFlight(s), WeightOf) + Sum(s.done, DoneWeight)
    && s.counters.weight == Sum(InFlight(s), MarkOf(s.highWater)) + Sum(s.done, DoneWeight)
    && s.counters.total <= MAX64
  }

  ghost predicate BytesConserved(s: Plan) {
    && s.totalBytes == Sum(InFlight(s), SizeOf) + Sum(s.done, DoneSize)
    && s.totalFiles == |InFlight(s)| + |Settled(s.done)|
    && s.completedBytes == s.counters.succeeded == Sum(s.done, DoneBytes)
    && s.completedFiles == Sum(s.done, DoneGood)
  }

  ghost predicate MarksBounded(s: Plan) {
    && s.highWater.Keys <= IdSet(InFlight(s))
    && forall f :: f in InFlight(s) ==> Get(s.highWater, f.id, 0) <= Weight(f.size)
  }

  ghost predicate OutcomesCounted(s: Plan) {
    && s.outcomes.succeeded == Sum(s.done, Ended(Succeeded))
    && s.outcomes.skipped == Sum(s.done, Ended(Skipped))
    && s.outcomes.failed == Sum(s.done, Ended(Failed))
    && s.outcomes.retained == Sum(s.done, Ended(CopiedSourceRetained))
    && s.retained == Results(s.done)
    && forall d :: d in s.done && d.scanned ==> d.outcome == Failed && d.file.size == 0
  }

  /** An item's attempt number is the number of attempts begun, saturating. */
  ghost predicate AttemptsCounted(s: Plan) {
    && (forall f :: f in InFlight(s) ==>
          f.id in s.begun && s.begun[f.id] >= 1 && Attempt(s, f.id) == Min(MAX32, s.begun[f.id]))
    && (forall p :: p in s.parked ==> p.incident.attempts == Attempt(s, p.file.id))
  }

  /** Attempt numbers are only ever recorded for ids already given out. */
  ghost predicate CountsKnown(s: Plan) {
    forall id :: id in s.attemptCounts && s.nextId != 0 ==> id < s.nextId
  }

  ghost predicate ParkedSound(s: Plan) {
    forall p :: p in s.parked ==>
      && p.incident.fileId == p.file.id
      && p.incident.source == p.file.source && p.incident.destination == p.file.destination
      && (p.recovery.Some? ==>
            && p.incident.action == RetrySourceRemoval
            && p.recovery.value.source == p.file.source
            && p.recovery.value.destination == p.file.destination
            && p.recovery.value.preexisted == p.incident.preexisted)
  }

  /** A mark that was not restored from an archive is covered by reported writes. */
  ghost predicate WritesCover(s: Plan) {
    && s.counters.physical == Wrap(Sum(s.writes, BytesOf))
    && (forall f :: f in InFlight(s) && f.id !in s.restored ==>
          Get(s.highWater, f.id, 0) <= Written(s.writes, f.id))
    && (forall id :: id in s.attemptBytes ==> s.attemptBytes[id] <= Written(s.writes, id))
  }

  ghost predicate Inv(k: Keys, s: Plan) {
    && IdsSound(s) && KeysExact(k, s) && WeightsConserved(s) && BytesConserved(s) && MarksBounded(s)
    && OutcomesCounted(s) && AttemptsCounted(s) && CountsKnown(s) && ParkedSound(s) && WritesCover(s)
    && s.materialized <= |s.directories|
  }

  // ---- bags of items ----

  lemma ParkedFilesSnoc(parked: seq<ParkedFile>, p: ParkedFile)
    ensures ParkedFiles(parked + [p]) == ParkedFiles(parked) + [p.file]
  {
  }

  lemma ParkedFilesRemove(parked: seq<ParkedFile>, i: nat)
    requires i < |parked|
    ensures ParkedFiles(RemoveAt(parked, i)) == RemoveAt(ParkedFiles(parked), i)
  {
  }

  lemma SameMembers(xs: seq<File>, ys: seq<File>)
    requires multiset(xs) == multiset(ys)
    ensures |xs| == |ys| && IdSet(xs) == IdSet(ys)
    ensures forall f :: f in xs <==> f in ys
  {
    assert |xs| == |multiset(xs)| && |ys| == |multiset(ys)|;
    assert forall f :: f in xs <==> f in multiset(xs);
    assert forall f :: f in ys <==> f in multiset(ys);
  }

  lemma ActiveMember(s: Plan, i: nat)
    requires i < |s.active|
    ensures s.active[i] in InFlight(s)
    ensures multiset(s.pending + RemoveAt(s.active, i) + ParkedFiles(s.parked))
            == multiset(InFlight(s)) - multiset{s.active[i]}
  {
    assert InFlight(s)[|s.pending| + i] == s.active[i];
  }

  lemma PendingMember(s: Plan, i: nat)
    requires i < |s.pending|
    ensures s.pending[i] in InFlight(s)
    ensures multiset(RemoveAt(s.pending, i) + s.active + ParkedFiles(s.parked))
            == multiset(InFlight(s)) - multiset{s.pending[i]}
  {
    assert InFlight(s)[i] == s.pending[i];
  }

  lemma ParkedMember(s: Plan, i: nat)
    requires i < |s.parked|
    ensures s.parked[i].file in InFlight(s)
    ensures multiset(s.pending + s.active + ParkedFiles(RemoveAt(s.parked, i)))
            == multiset(InFlight(s)) - multiset{s.parked[i].file}
  {
    assert InFlight(s)[|s.pending| + |s.active| + i] == s.parked[i].file;
    ParkedFilesRemove(s.parked, i);
  }

  lemma SumWithout(xs: seq<File>, ys: seq<File>, f: File, g: File -> nat)
    requires f in xs && multiset(ys) == multiset(xs) - multiset{f}
    ensures Sum(xs, g) == Sum(ys, g) + g(f)
    ensures |xs| == |ys| + 1
  {
    assert f in multiset(xs);
    assert multiset(ys + [f]) == multiset(xs);
    SumPermutation(ys + [f], xs, g);
    SumSnoc(ys, f, g);
    assert |ys + [f]| == |multiset(ys + [f])| == |multiset(xs)| == |xs|;
  }

  // ---- component preservation ----

  lemma FewerIds(s: Plan, t: Plan)
    requires IdsSound(s) && t.nextId == s.nextId && multiset(All(t)) <= multiset(All(s))
    ensures IdsSound(t)
  {
    DistinctSubset(All(s), All(t), IdOf);
    forall f | f in All(t)
      ensures f in All(s)
    {
      assert f in multiset(All(t)) && f in multiset(All(s));
    }
  }

  lemma SameKeys(k: Keys, s: Plan, t: Plan)
    requires KeysExact(k, s) && t.reserved == s.reserved
    requires multiset(Holders(t)) == multiset(Holders(s))
    ensures KeysExact(k, t)
  {
    DistinctSubset(Holders(s), Holders(t), KeyOf(k));
    SameMembers(Holders(s), Holders(t));
  }

  /** Taking one element out of a duplicate-free collection takes out its key. */
  lemma OneLess<K>(xs: seq<File>, ys: seq<File>, f: File, key: File -> K)
    requires DistinctBy(xs, key) && f in xs && multiset(ys) == multiset(xs) - multiset{f}
    ensures DistinctBy(ys, key)
    ensures forall x :: x in ys <==> x in xs && key(x) != key(f)
  {
    DistinctSubset(xs, ys, key);
    DistinctOnce(xs, key, f);
    assert f in multiset(xs);
    assert multiset(ys)[f] == 0;
    forall x
      ensures x in ys <==> x in xs && key(x) != key(f)
    {
      assert x in ys <==> x in multiset(ys);
      assert x in xs <==> x in multiset(xs);
      if x in xs { DistinctMember(xs, key, x, f); }
    }
  }

  lemma OneKeyLess(k: Keys, xs: seq<File>, ys: seq<File>, f: File)
    requires DistinctBy(xs, KeyOf(k)) && f in xs && multiset(ys) == multiset(xs) - multiset{f}
    ensures DistinctBy(ys, KeyOf(k))
    ensures KeysOf(k, ys) == KeysOf(k, xs) - {k.key(f.destination)}
  {
    var key := KeyOf(k);
    OneLess(xs, ys, f, key);
    forall x
      ensures x in ys <==> x in xs && k.key(x.destination) != k.key(f.destination)
    {
      assert key(x) == k.key(x.destination) && key(f) == k.key(f.destination);
    }
  }

  lemma MarksSame(xs: seq<File>, a: map<nat, nat>, b: map<nat, nat>)
    requires forall f :: f in xs ==> Get(a, f.id, 0) == Get(b, f.id, 0)
    ensures Sum(xs, MarkOf(a)) == Sum(xs, MarkOf(b))
  {
    SumSame(xs, MarkOf(a), MarkOf(b));
  }

  /** Resolved weight never exceeds the total, and equals it once nothing is unresolved. */
  lemma ResolvedAtMostTotal(k: Keys, s: Plan)
    requires Inv(k, s)
    ensures s.counters.weight <= s.counters.total
    ensures InFlight(s) == [] ==> s.counters.weight == s.counters.total
  {
    SumAtMost(InFlight(s), MarkOf(s.highWater), WeightOf);
  }

  lemma {:induction false} SizeAtMostWeight(xs: seq<File>)
    ensures Sum(xs, SizeOf) <= Sum(xs, WeightOf)
    ensures |xs| <= Sum(xs, WeightOf)
  {
    SumAtMost(xs, SizeOf, WeightOf);
    if xs != [] { SizeAtMostWeight(xs[1..]); }
  }

  lemma {:induction false} DoneAtMostWeight(xs: seq<Done>)
    ensures Sum(xs, DoneBytes) <= Sum(xs, DoneSize) <= Sum(xs, DoneWeight)
    ensures Sum(xs, DoneGood) <= |xs| <= Sum(xs, DoneWeight)
  {
    if xs != [] { DoneAtMostWeight(xs[1..]); }
  }

  lemma {:induction false} SettledCount(done: seq<Done>)
    requires forall d :: d in done && d.scanned ==> d.outcome == Failed
    ensures Sum(done, DoneGood) <= |Settled(done)| <= |done|
  {
    if done != [] {
      var d := Last(done);
      assert done == Front(done) + [d];
      SettledCount(Front(done));
      SumSnoc(Front(done), d, DoneGood);
    }
  }

  // ---- shuffles: items change lists, the bag of items does not ----

  ghost predicate SameBooks(s: Plan, t: Plan) {
    t == s.(pending := t.pending, active := t.active, parked := t.parked,
            attemptBytes := t.attemptBytes, attemptCounts := t.attemptCounts, begun := t.begun,
            materialized := t.materialized)
  }

  lemma Shuffled(k: Keys, s: Plan, t: Plan)
    requires Inv(k, s) && SameBooks(s, t) && t.materialized <= |t.directories|
    requires multiset(InFlight(t)) == multiset(InFlight(s))
    requires AttemptsCounted(t) && ParkedSound(t)
    requires t.attemptCounts.Keys <= s.attemptCounts.Keys + IdSet(InFlight(s))
    requires t.attemptBytes.Keys <= s.attemptBytes.Keys
    requires forall id :: id in t.attemptBytes ==> t.attemptBytes[id] == s.attemptBytes[id]
    ensures Inv(k, t)
  {
    FewerIds(s, t);
    SameKeys(k, s, t);
    SameMembers(InFlight(s), InFlight(t));
    SumPermutation(InFlight(s), InFlight(t), WeightOf);
    SumPermutation(InFlight(s), InFlight(t), SizeOf);
    SumPermutation(InFlight(s), InFlight(t), MarkOf(s.highWater));
    forall id | id in t.attemptCounts && t.nextId != 0
      ensures id < t.nextId
    {
      if id !in s.attemptCounts {
        var f :| f in InFlight(s) && f.id == id;
        assert f in All(s);
      }
    }
  }

  // ---- retirement: one item leaves the lists and becomes terminal ----

  /** `t` is `s` with `f` taken out of its list; nothing is said about the accounts. */
  ghost predicate TakenOut(s: Plan, t: Plan, f: File) {
    && f in InFlight(s)
    && multiset(InFlight(t)) == multiset(InFlight(s)) - multiset{f}
    && (forall p :: p in t.parked ==> p in s.parked)
  }

  lemma OthersDiffer(s: Plan, t: Plan, f: File)
    requires IdsSound(s) && TakenOut(s, t, f)
    ensures forall x :: x in InFlight(t) <==> x in InFlight(s) && x.id != f.id
    ensures IdSet(InFlight(t)) == IdSet(InFlight(s)) - {f.id}
  {
    assert multiset(InFlight(s)) <= multiset(All(s));
    DistinctSubset(All(s), InFlight(s), IdOf);
    OneLess(InFlight(s), InFlight(t), f, IdOf);
    assert forall x: File :: IdOf(x) == x.id;
  }

  lemma RetiredIds(s: Plan, t: Plan, d: Done)
    requires IdsSound(s) && TakenOut(s, t, d.file)
    requires t.nextId == s.nextId && t.done == s.done + [d] && !d.scanned
    ensures IdsSound(t)
  {
    DoneSnoc(s.done, d);
    assert d.file in multiset(InFlight(s));
    FewerIds(s, t);
  }

  lemma RetiredKeys(k: Keys, s: Plan, t: Plan, d: Done)
    requires KeysExact(k, s) && TakenOut(s, t, d.file) && t.done == s.done + [d]
    requires t.reserved == if Successful(d.outcome) then s.reserved else s.reserved - {k.key(d.file.destination)}
    ensures KeysExact(k, t)
  {
    RetiredHolders(s, t, d);
    hide Holders, TakenOut, DistinctBy, KeysOf;
    if Successful(d.outcome) {
      SameKeys(k, s, t);
    } else {
      OneKeyLess(k, Holders(s), Holders(t), d.file);
    }
  }

  /** A settled item still holds its destination if it produced it, and no longer otherwise. */
  lemma RetiredHolders(s: Plan, t: Plan, d: Done)
    requires TakenOut(s, t, d.file) && t.done == s.done + [d]
    ensures d.file in Holders(s)
    ensures multiset(Holders(t)) == multiset(Holders(s)) - if Successful(d.outcome) then multiset{} else multiset{d.file}
  {
    DoneSnoc(s.done, d);
    assert d.file in multiset(InFlight(s));
  }

  lemma RetiredWeights(s: Plan, t: Plan, d: Done)
    requires IdsSound(s) && WeightsConserved(s) && MarksBounded(s)
    requires TakenOut(s, t, d.file) && t.done == s.done + [d]
    requires t.highWater == s.highWater - {d.file.id}
    requires var mark := Get(s.highWater, d.file.id, 0);
      && t.counters.weight == Wrap(s.counters.weight + (Weight(d.file.size) - Min(Weight(d.file.size), mark)))
      && t.counters.total == s.counters.total
    ensures WeightsConserved(t)
    ensures t.counters.weight == s.counters.weight + Weight(d.file.size) - Get(s.highWater, d.file.id, 0)
  {
    var f := d.file;
    OthersDiffer(s, t, f);
    assert forall x :: x in InFlight(t) ==> Get(s.highWater, x.id, 0) == Get(t.highWater, x.id, 0);
    SumWithout(InFlight(s), InFlight(t), f, WeightOf);
    SumWithout(InFlight(s), InFlight(t), f, MarkOf(s.highWater));
    MarksSame(InFlight(t), s.highWater, t.highWater);
    SumSnoc(s.done, d, DoneWeight);
    SumAtMost(InFlight(t), MarkOf(s.highWater), WeightOf);
  }

  lemma LeftMarks(s: Plan, t: Plan, f: File)
    requires IdsSound(s) && MarksBounded(s) && TakenOut(s, t, f)
    requires t.highWater == s.highWater - {f.id}
    ensures MarksBounded(t)
  {
    OthersDiffer(s, t, f);
  }

  lemma RetiredBytes(s: Plan, t: Plan, d: Done)
    requires BytesConserved(s) && WeightsConserved(s) && OutcomesCounted(s)
    requires TakenOut(s, t, d.file) && t.done == s.done + [d] && !d.scanned
    requires t.totalBytes == s.totalBytes && t.totalFiles == s.totalFiles
    requires var good := Successful(d.outcome);
      && t.counters.succeeded == (if good then Wrap(s.counters.succeeded + d.file.size) else s.counters.succeeded)
      && t.completedBytes == (if good then s.completedBytes + Min(d.file.size, Monus(s.totalBytes, s.completedBytes))
                              else s.completedBytes)
      && t.completedFiles == (if good && s.completedFiles < s.totalFiles then s.completedFiles + 1
                              else s.completedFiles)
    ensures BytesConserved(t)
  {
    DoneSnoc(s.done, d);
    SumWithout(InFlight(s), InFlight(t), d.file, SizeOf);
    SumMember(InFlight(s), d.file, WeightOf);
    SumSnoc(s.done, d, DoneSize);
    SumSnoc(s.done, d, DoneBytes);
    SumSnoc(s.done, d, DoneGood);
    DoneAtMostWeight(s.done);
    SettledCount(s.done);
  }

  lemma RetiredCounts(s: Plan, t: Plan, d: Done)
    requires OutcomesCounted(s) && !d.scanned && t.done == s.done + [d]
    requires t.outcomes == CountOutcome(s.outcomes, d.outcome)
    requires t.retained == if d.outcome == Succeeded then s.retained else s.retained + [ResultOf(d)]
    ensures OutcomesCounted(t)
  {
    DoneSnoc(s.done, d);
    SumSnoc(s.done, d, Ended(Succeeded));
    SumSnoc(s.done, d, Ended(Skipped));
    SumSnoc(s.done, d, Ended(Failed));
    SumSnoc(s.done, d, Ended(CopiedSourceRetained));
  }

  lemma LeftRest(s: Plan, t: Plan, f: File)
    requires IdsSound(s) && TakenOut(s, t, f)
    requires AttemptsCounted(s) && ParkedSound(s) && WritesCover(s)
    requires t.begun == s.begun && t.writes == s.writes && t.restored == s.restored
    requires t.counters.physical == s.counters.physical
    requires t.highWater == s.highWater - {f.id} && t.attemptBytes == s.attemptBytes - {f.id}
    requires t.attemptCounts == s.attemptCounts - {f.id} || t.attemptCounts == s.attemptCounts
    ensures AttemptsCounted(t) && ParkedSound(t) && WritesCover(t)
  {
    OthersDiffer(s, t, f);
    forall p | p in t.parked
      ensures p.file in InFlight(t)
    {
      var i :| 0 <= i < |t.parked| && t.parked[i] == p;
      ParkedMember(t, i);
    }
  }

  /** `t` is `s` after the item of `d` was settled as `d` says, whichever call did it. */
  ghost predicate Settles(k: Keys, s: Plan, t: Plan, d: Done) {
    var f := d.file;
    var mark := Get(s.highWater, f.id, 0);
    var good := Successful(d.outcome);
    && TakenOut(s, t, f) && !d.scanned
    && t.done == s.done + [d]
    && t.nextId == s.nextId && t.directories == s.directories && t.materialized == s.materialized
    && t.reserved == (if good then s.reserved else s.reserved - {k.key(f.destination)})
    && t.highWater == s.highWater - {f.id} && t.attemptBytes == s.attemptBytes - {f.id}
    && (t.attemptCounts == s.attemptCounts - {f.id} || t.attemptCounts == s.attemptCounts)
    && t.begun == s.begun && t.writes == s.writes && t.restored == s.restored
    && t.counters.physical == s.counters.physical && t.counters.total == s.counters.total
    && t.counters.weight == Wrap(s.counters.weight + (Weight(f.size) - Min(Weight(f.size), mark)))
    && t.counters.succeeded == (if good then Wrap(s.counters.succeeded + f.size) else s.counters.succeeded)
    && t.totalBytes == s.totalBytes && t.totalFiles == s.totalFiles
    && t.completedBytes == (if good then s.completedBytes + Min(f.size, Monus(s.totalBytes, s.completedBytes))
                            else s.completedBytes)
    && t.completedFiles == (if good && s.completedFiles < s.totalFiles then s.completedFiles + 1
                            else s.completedFiles)
    && t.outcomes == CountOutcome(s.outcomes, d.outcome)
    && t.retained == if d.outcome == Succeeded then s.retained else s.retained + [ResultOf(d)]
  }

  /** Settling an item keeps the invariant, and no saturating guard clips: its weight
      enters the resolved weight less exactly what its mark had contributed. */
  lemma Retired(k: Keys, s: Plan, t: Plan, d: Done)
    requires Inv(k, s) && Settles(k, s, t, d)
    ensures Inv(k, t)
    ensures t.counters.weight == s.counters.weight + Weight(d.file.size) - Get(s.highWater, d.file.id, 0)
  {
    assert IdsSound(t) by { RetiredIds(s, t, d); }
    assert KeysExact(k, t) by { RetiredKeys(k, s, t, d); }
    RetiredWeights(s, t, d);
    assert MarksBounded(t) by { LeftMarks(s, t, d.file); }
    assert BytesConserved(t) by { RetiredBytes(s, t, d); }
    assert OutcomesCounted(t) by { RetiredCounts(s, t, d); }
    LeftRest(s, t, d.file);
  }
}
