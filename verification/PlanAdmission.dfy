/** Items entering and leaving a live plan: construction, append, restore, removal. */
module PlanAdmission {
  import opened Items
  import opened Sequences
  import opened LivePlan
  import opened PlanInvariant

  // ---- dropping items ----

  lemma {:induction false} SplitSelected(files: seq<File>, ids: set<nat>)
    ensures multiset(Selected(files, ids)) + multiset(Kept(files, ids)) == multiset(files)
    ensures forall f :: f in Selected(files, ids) <==> f in files && f.id in ids
    ensures forall f :: f in Kept(files, ids) <==> f in files && f.id !in ids
  {
    if files != [] {
      SplitSelected(files[1..], ids);
      assert files == [files[0]] + files[1..];
    }
  }

  lemma TwiceLess(m: map<nat, nat>, id: nat, ids: set<nat>)
    ensures m - {id} - ids == m - ({id} + ids)
  {
  }

  /** Dropping items one by one forgets exactly their marks; no guard clips on the way. */
  lemma {:induction false} DropAllForm(s: Plan, files: seq<File>)
    requires DistinctBy(files, IdOf) && Sum(files, MarkOf(s.highWater)) <= s.counters.weight
    ensures DropAll(s, files)
            == s.(counters := s.counters.(weight := s.counters.weight - Sum(files, MarkOf(s.highWater))),
                  highWater := s.highWater - IdSet(files), attemptBytes := s.attemptBytes - IdSet(files),
                  attemptCounts := s.attemptCounts - IdSet(files))
    decreases files
  {
    if files == [] {
      assert IdSet(files) == {};
    } else {
      var f, rest := files[0], files[1..];
      var t := DropInFlight(s, f.id);
      forall g | g in rest
        ensures Get(t.highWater, g.id, 0) == Get(s.highWater, g.id, 0)
      {
        var j :| 0 <= j < |rest| && rest[j] == g;
        assert IdOf(files[0]) != IdOf(files[j + 1]);
      }
      MarksSame(rest, t.highWater, s.highWater);
      forall i, j | 0 <= i < j < |rest|
        ensures IdOf(rest[i]) != IdOf(rest[j])
      {
        assert IdOf(files[i + 1]) != IdOf(files[j + 1]);
      }
      DropAllForm(t, rest);
      assert IdSet(files) == {f.id} + IdSet(rest);
      TwiceLess(s.highWater, f.id, IdSet(rest));
      TwiceLess(s.attemptBytes, f.id, IdSet(rest));
      TwiceLess(s.attemptCounts, f.id, IdSet(rest));
    }
  }

  ghost predicate Without(s: Plan, t: Plan, gone: seq<File>) {
    && multiset(InFlight(t)) + multiset(gone) == multiset(InFlight(s))
    && (forall p :: p in t.parked ==> p in s.parked)
  }

  /** `t` is `s` with the items of `gone` edited out of the plan. */
  ghost predicate Drops(k: Keys, s: Plan, t: Plan, gone: seq<File>) {
    && Without(s, t, gone)
    && t.done == s.done && t.nextId == s.nextId && t.directories == s.directories && t.materialized == s.materialized
    && t.reserved == s.reserved - KeysOf(k, gone)
    && t.highWater == s.highWater - IdSet(gone) && t.attemptBytes == s.attemptBytes - IdSet(gone)
    && t.attemptCounts == s.attemptCounts - IdSet(gone)
    && t.begun == s.begun && t.writes == s.writes && t.restored == s.restored
    && t.counters.physical == s.counters.physical && t.counters.succeeded == s.counters.succeeded
    && t.counters.total == s.counters.total - Min(s.counters.total, Wrap(Sum(gone, WeightOf)))
    && t.counters.weight == s.counters.weight - Min(s.counters.weight, Sum(gone, MarkOf(s.highWater)))
    && t.totalBytes == s.totalBytes - Min(s.totalBytes, Wrap(Sum(gone, SizeOf)))
    && t.totalFiles == s.totalFiles - Min(s.totalFiles, |gone|)
    && t.completedBytes == s.completedBytes && t.completedFiles == s.completedFiles
    && t.outcomes == s.outcomes && t.retained == s.retained
  }

  /** Splitting a duplicate-free collection splits its keys. */
  lemma SplitBy<K>(xs: seq<File>, ys: seq<File>, gone: seq<File>, key: File -> K)
    requires DistinctBy(xs, key) && multiset(ys) + multiset(gone) == multiset(xs)
    ensures DistinctBy(ys, key)
    ensures forall y, g :: y in ys && g in gone ==> key(y) != key(g)
    ensures forall x :: x in xs <==> x in ys || x in gone
  {
    assert multiset(ys + gone) == multiset(xs);
    DistinctSubset(xs, ys + gone, key);
    DistinctSubset(xs, ys, key);
    SameMembers(ys + gone, xs);
    forall y, g | y in ys && g in gone
      ensures key(y) != key(g)
    {
      var i :| 0 <= i < |ys| && ys[i] == y;
      var j :| 0 <= j < |gone| && gone[j] == g;
      assert key((ys + gone)[i]) != key((ys + gone)[|ys| + j]);
    }
  }

  lemma DroppedMembers(s: Plan, t: Plan, gone: seq<File>)
    requires IdsSound(s) && Without(s, t, gone)
    ensures forall x :: x in InFlight(t) <==> x in InFlight(s) && x.id !in IdSet(gone)
    ensures IdSet(InFlight(t)) == IdSet(InFlight(s)) - IdSet(gone)
  {
    assert multiset(InFlight(s)) <= multiset(All(s));
    DistinctSubset(All(s), InFlight(s), IdOf);
    SplitBy(InFlight(s), InFlight(t), gone, IdOf);
    assert forall x: File :: IdOf(x) == x.id;
  }

  lemma DroppedIds(s: Plan, t: Plan, gone: seq<File>)
    requires IdsSound(s) && Without(s, t, gone) && t.nextId == s.nextId && t.done == s.done
    ensures IdsSound(t)
  {
    assert multiset(All(t)) + multiset(gone) == multiset(All(s));
    FewerIds(s, t);
  }

  lemma DroppedKeys(k: Keys, s: Plan, t: Plan, gone: seq<File>)
    requires KeysExact(k, s) && Without(s, t, gone) && t.done == s.done
    requires t.reserved == s.reserved - KeysOf(k, gone)
    ensures KeysExact(k, t)
  {
    assert multiset(Holders(t)) + multiset(gone) == multiset(Holders(s));
    SplitBy(Holders(s), Holders(t), gone, KeyOf(k));
    assert forall x: File :: KeyOf(k)(x) == k.key(x.destination);
    assert t.reserved == KeysOf(k, Holders(t));
  }

  lemma SplitSum(xs: seq<File>, ys: seq<File>, gone: seq<File>, f: File -> nat)
    requires multiset(ys) + multiset(gone) == multiset(xs)
    ensures Sum(xs, f) == Sum(ys, f) + Sum(gone, f)
    ensures |xs| == |ys| + |gone|
  {
    assert multiset(ys + gone) == multiset(xs);
    SumPermutation(ys + gone, xs, f);
    SumConcat(ys, gone, f);
    SameMembers(ys + gone, xs);
  }

  lemma DroppedSums(k: Keys, s: Plan, t: Plan, gone: seq<File>)
    requires IdsSound(s) && WeightsConserved(s) && BytesConserved(s) && Drops(k, s, t, gone)
    ensures WeightsConserved(t) && BytesConserved(t)
  {
    DroppedMembers(s, t, gone);
    SplitSum(InFlight(s), InFlight(t), gone, WeightOf);
    SplitSum(InFlight(s), InFlight(t), gone, SizeOf);
    SplitSum(InFlight(s), InFlight(t), gone, MarkOf(s.highWater));
    SizeAtMostWeight(gone);
    assert forall f :: f in InFlight(t) ==> Get(s.highWater, f.id, 0) == Get(t.highWater, f.id, 0);
    MarksSame(InFlight(t), s.highWater, t.highWater);
  }

  lemma DroppedRest(k: Keys, s: Plan, t: Plan, gone: seq<File>)
    requires IdsSound(s) && MarksBounded(s) && AttemptsCounted(s) && ParkedSound(s) && WritesCover(s)
    requires Drops(k, s, t, gone)
    ensures MarksBounded(t) && AttemptsCounted(t) && ParkedSound(t) && WritesCover(t)
  {
    DroppedMembers(s, t, gone);
    forall p | p in t.parked
      ensures p.file in InFlight(t)
    {
      var i :| 0 <= i < |t.parked| && t.parked[i] == p;
      ParkedMember(t, i);
    }
  }

  lemma Dropped(k: Keys, s: Plan, t: Plan, gone: seq<File>)
    requires Inv(k, s) && Drops(k, s, t, gone)
    ensures Inv(k, t)
  {
    assert IdsSound(t) by { DroppedIds(s, t, gone); }
    assert KeysExact(k, t) by { DroppedKeys(k, s, t, gone); }
    assert WeightsConserved(t) && BytesConserved(t) by { DroppedSums(k, s, t, gone); }
    DroppedRest(k, s, t, gone);
  }

  lemma RemovedList(s: Plan, t: Plan, ids: set<nat>)
    requires IdsSound(s) && t.active == s.active && t.parked == s.parked && t.pending == Kept(s.pending, ids)
    ensures Without(s, t, Selected(s.pending, ids))
    ensures DistinctBy(Selected(s.pending, ids), IdOf)
  {
    var gone := Selected(s.pending, ids);
    SplitSelected(s.pending, ids);
    assert multiset(gone) <= multiset(s.pending) <= multiset(All(s));
    DistinctSubset(All(s), gone, IdOf);
  }

  /** The plan between settling the totals of a removal and dropping its marks. */
  function Discounted(k: Keys, s: Plan, gone: seq<File>): Plan {
    s.(reserved := s.reserved - KeysOf(k, gone),
       totalBytes := s.totalBytes - Min(s.totalBytes, Wrap(Sum(gone, SizeOf))),
       totalFiles := s.totalFiles - Min(s.totalFiles, |gone|),
       counters := s.counters.(total := s.counters.total - Min(s.counters.total, Wrap(Sum(gone, WeightOf)))))
  }

  lemma RemoveForm(k: Keys, s: Plan, ids: set<nat>)
    requires Selected(s.pending, ids) != [] && DistinctBy(Selected(s.pending, ids), IdOf)
    requires Sum(Selected(s.pending, ids), MarkOf(s.highWater)) <= s.counters.weight
    ensures var gone, t, d := Selected(s.pending, ids), Remove(k, s, ids), Discounted(k, s, Selected(s.pending, ids));
      t == d.(counters := d.counters.(weight := s.counters.weight - Sum(gone, MarkOf(s.highWater))),
              highWater := s.highWater - IdSet(gone), attemptBytes := s.attemptBytes - IdSet(gone),
              attemptCounts := s.attemptCounts - IdSet(gone),
              pending := Kept(s.pending, ids), largest := t.largest)
  {
    DropAllForm(Discounted(k, s, Selected(s.pending, ids)), Selected(s.pending, ids));
  }

  lemma RemoveMarks(s: Plan, ids: set<nat>)
    requires IdsSound(s) && WeightsConserved(s)
    ensures Sum(Selected(s.pending, ids), MarkOf(s.highWater)) <= s.counters.weight
    ensures DistinctBy(Selected(s.pending, ids), IdOf)
  {
    var bare := s.(pending := Kept(s.pending, ids));
    RemovedList(s, bare, ids);
    SplitSum(InFlight(s), InFlight(bare), Selected(s.pending, ids), MarkOf(s.highWater));
  }

  lemma RemoveDrops(k: Keys, s: Plan, ids: set<nat>)
    requires IdsSound(s) && WeightsConserved(s) && Selected(s.pending, ids) != []
    ensures Drops(k, s, Remove(k, s, ids), Selected(s.pending, ids))
    ensures Sum(Selected(s.pending, ids), MarkOf(s.highWater)) <= s.counters.weight
  {
    RemoveMarks(s, ids);
    RemoveForm(k, s, ids);
    RemovedList(s, Remove(k, s, ids), ids);
  }

  /** Removing items keeps the invariant, and what leaves the totals is exactly their
      weight, their marks and their bytes. */
  lemma RemoveKeeps(k: Keys, s: Plan, ids: set<nat>)
    requires Inv(k, s)
    ensures Inv(k, Remove(k, s, ids))
    ensures var gone, t := Selected(s.pending, ids), Remove(k, s, ids);
      && t.counters.total == s.counters.total - Sum(gone, WeightOf)
      && t.counters.weight == s.counters.weight - Sum(gone, MarkOf(s.highWater))
      && t.totalBytes == s.totalBytes - Sum(gone, SizeOf)
      && t.totalFiles == s.totalFiles - |gone|
  {
    var gone := Selected(s.pending, ids);
    if gone != [] {
      RemoveDrops(k, s, ids);
      var t := Remove(k, s, ids);
      Dropped(k, s, t, gone);
      SplitSum(InFlight(s), InFlight(t), gone, WeightOf);
      SplitSum(InFlight(s), InFlight(t), gone, SizeOf);
      SizeAtMostWeight(gone);
    }
  }

  lemma SkippedList(s: Plan, t: Plan, i: nat)
    requires i < |s.active|
    requires t.pending == s.pending && t.parked == s.parked && t.active == RemoveAt(s.active, i)
    ensures Without(s, t, [s.active[i]])
    ensures s.active[i] in InFlight(s)
  {
    ActiveMember(s, i);
    assert s.active[i] in multiset(InFlight(s));
  }

  lemma SkipDrops(k: Keys, s: Plan, id: nat)
    requires WeightsConserved(s) && HasId(s.active, id)
    ensures Drops(k, s, Skip(k, s, id), [s.active[Find(s.active, id)]])
  {
    var i, t := Find(s.active, id), Skip(k, s, id);
    var f := s.active[i];
    SkippedList(s, t, i);
    SumMember(InFlight(s), f, WeightOf);
    assert IdSet([f]) == {id} && KeysOf(k, [f]) == {k.key(f.destination)};
    SumOne(f, WeightOf);
    SumOne(f, SizeOf);
    SumOne(f, MarkOf(s.highWater));
  }

  lemma SkipKeeps(k: Keys, s: Plan, id: nat)
    requires Inv(k, s)
    ensures Inv(k, Skip(k, s, id))
  {
    if HasId(s.active, id) {
      SkipDrops(k, s, id);
      Dropped(k, s, Skip(k, s, id), [s.active[Find(s.active, id)]]);
    }
  }

  // ---- admitting items ----

  /** Screening accepts exactly distinct, normalisable, stable and untaken destinations. */
  lemma {:induction false} ScreenAccepts(k: Keys, now: Path -> Key, files: seq<File>, taken: set<Key>)
    requires Screen(k, now, files, taken).Accepted?
    ensures var r := Screen(k, now, files, taken);
      && DistinctBy(r.files, KeyOf(k)) && r.keys == taken + KeysOf(k, r.files)
      && (forall f :: f in r.files ==>
            k.key(f.destination) != [] && k.key(f.destination) !in taken && f.sensitive.Some?
            && k.key(f.destination) == now(f.destination))
      && (forall i :: 0 <= i < |files| ==> r.files[i] == files[i].(sensitive := r.files[i].sensitive))
  {
    var r := Screen(k, now, files, taken);
    if files == [] {
      assert KeysOf(k, []) == {};
    } else {
      var f := WithPolicy(k, files[0]).value;
      var key := k.key(f.destination);
      ScreenAccepts(k, now, files[1..], taken + {key});
      var rest := Screen(k, now, files[1..], taken + {key}).files;
      assert r.files == [f] + rest;
      DistinctAppend([f], rest, KeyOf(k));
      assert KeysOf(k, r.files) == {key} + KeysOf(k, rest);
    }
  }

  /** Conversely, a plan whose destinations are fit and free is accepted. */
  lemma {:induction false} ScreenRefuses(k: Keys, now: Path -> Key, files: seq<File>, taken: set<Key>)
    requires DistinctBy(files, KeyOf(k))
    requires forall f :: f in files ==>
      && WithPolicy(k, f).Some? && k.key(f.destination) != [] && k.key(f.destination) == now(f.destination)
      && k.key(f.destination) !in taken
    ensures Screen(k, now, files, taken).Accepted?
  {
    if files != [] {
      var key := k.key(files[0].destination);
      forall g | g in files[1..]
        ensures k.key(g.destination) !in taken + {key}
      {
        var j :| 0 <= j < |files[1..]| && files[1..][j] == g;
        assert KeyOf(k)(files[0]) != KeyOf(k)(files[j + 1]);
      }
      forall i, j | 0 <= i < j < |files[1..]|
        ensures KeyOf(k)(files[1..][i]) != KeyOf(k)(files[1..][j])
      {
        assert KeyOf(k)(files[i + 1]) != KeyOf(k)(files[j + 1]);
      }
      ScreenRefuses(k, now, files[1..], taken + {key});
    }
  }

  ghost predicate With(s: Plan, t: Plan, added: seq<File>) {
    && multiset(InFlight(t)) == multiset(InFlight(s)) + multiset(added)
    && DistinctBy(added, IdOf)
    && (forall f, g :: f in added && g in All(s) ==> f.id != g.id)
    && (forall f :: f in added ==> f.id <= MAX64 && (t.nextId != 0 ==> f.id < t.nextId))
    && (t.nextId != 0 ==> s.nextId != 0 && s.nextId <= t.nextId)
    && t.nextId <= MAX64
  }

  lemma AdmittedIds(s: Plan, t: Plan, added: seq<File>)
    requires IdsSound(s) && With(s, t, added) && Settled(t.done) == Settled(s.done)
    ensures IdsSound(t)
  {
    DistinctAppend(All(s), added, IdOf);
    assert multiset(All(t)) == multiset(All(s) + added);
    DistinctSubset(All(s) + added, All(t), IdOf);
    SameMembers(All(t), All(s) + added);
  }

  lemma AdmittedKeys(k: Keys, s: Plan, t: Plan, added: seq<File>)
    requires KeysExact(k, s) && multiset(InFlight(t)) == multiset(InFlight(s)) + multiset(added)
    requires Produced(t.done) == Produced(s.done) && DistinctBy(added, KeyOf(k))
    requires forall f :: f in added ==> k.key(f.destination) !in s.reserved
    requires t.reserved == s.reserved + KeysOf(k, added)
    ensures KeysExact(k, t)
  {
    DistinctAppend(Holders(s), added, KeyOf(k)) by {
      assert forall f :: f in Holders(s) ==> k.key(f.destination) in s.reserved;
    }
    assert multiset(Holders(t)) == multiset(Holders(s) + added);
    DistinctSubset(Holders(s) + added, Holders(t), KeyOf(k));
    SameMembers(Holders(t), Holders(s) + added);
    assert t.reserved == KeysOf(k, Holders(t));
  }

  lemma AddedSum(xs: seq<File>, ys: seq<File>, added: seq<File>, f: File -> nat)
    requires multiset(ys) == multiset(xs) + multiset(added)
    ensures Sum(ys, f) == Sum(xs, f) + Sum(added, f)
    ensures |ys| == |xs| + |added|
    ensures forall x :: x in ys <==> x in xs || x in added
  {
    assert multiset(xs + added) == multiset(ys);
    SumPermutation(xs + added, ys, f);
    SumConcat(xs, added, f);
    SameMembers(xs + added, ys);
  }

  lemma {:induction false} NoMarks(files: seq<File>, marks: map<nat, nat>)
    requires forall f :: f in files ==> f.id !in marks
    ensures Sum(files, MarkOf(marks)) == 0
  {
    if files != [] { NoMarks(files[1..], marks); }
  }

  /** The added items take new keys, and no attempt was ever counted for them. */
  ghost predicate Reserves(k: Keys, s: Plan, t: Plan, added: seq<File>) {
    && DistinctBy(added, KeyOf(k)) && t.reserved == s.reserved + KeysOf(k, added)
    && forall f :: f in added ==> k.key(f.destination) !in s.reserved && f.id !in s.attemptCounts
  }

  /** The books after the addition. */
  ghost predicate Credits(s: Plan, t: Plan, added: seq<File>, fs: seq<Failure>) {
    && t.done == s.done + ScanDones(fs) && t.parked == s.parked
    && t.highWater == s.highWater && t.attemptBytes == s.attemptBytes && t.attemptCounts == s.attemptCounts
    && t.begun == s.begun + FirstAttempts(added) && t.writes == s.writes && t.restored == s.restored
    && t.counters.physical == s.counters.physical && t.counters.succeeded == s.counters.succeeded
    && t.counters.total == s.counters.total + Sum(added, WeightOf) + |fs|
    && t.counters.total <= MAX64
    && t.counters.weight == Wrap(s.counters.weight + |fs|)
    && t.totalBytes == s.totalBytes + Sum(added, SizeOf) && t.totalFiles == s.totalFiles + |added|
    && t.completedBytes == s.completedBytes && t.completedFiles == s.completedFiles
    && t.outcomes == s.outcomes.(failed := s.outcomes.failed + |fs|)
    && t.retained == s.retained + ScanResults(fs)
    && t.materialized == s.materialized && |t.directories| >= |s.directories|
  }

  /** `t` is `s` with fresh items queued and planning failures recorded. */
  ghost predicate Admits(k: Keys, s: Plan, t: Plan, added: seq<File>, fs: seq<Failure>) {
    With(s, t, added) && Reserves(k, s, t, added) && Credits(s, t, added, fs)
  }

  lemma FreshMarks(s: Plan, added: seq<File>)
    requires MarksBounded(s) && forall f, g :: f in added && g in All(s) ==> f.id != g.id
    ensures forall f :: f in added ==> f.id !in s.highWater
  {
    forall id | id in s.highWater
      ensures exists g :: g in All(s) && g.id == id
    {
      assert id in IdSet(InFlight(s));
      var g :| g in InFlight(s) && g.id == id;
      assert g in All(s);
    }
  }

  lemma AdmittedSums(k: Keys, s: Plan, t: Plan, added: seq<File>, fs: seq<Failure>)
    requires Admits(k, s, t, added, fs) && MarksBounded(s) && WeightsConserved(s) && BytesConserved(s)
    ensures WeightsConserved(t) && BytesConserved(t)
  {
    AddedSum(InFlight(s), InFlight(t), added, WeightOf);
    AddedSum(InFlight(s), InFlight(t), added, SizeOf);
    AddedSum(InFlight(s), InFlight(t), added, MarkOf(s.highWater));
    FreshMarks(s, added);
    NoMarks(added, s.highWater);
    SumConcat(s.done, ScanDones(fs), DoneWeight);
    SumConcat(s.done, ScanDones(fs), DoneSize);
    SumConcat(s.done, ScanDones(fs), DoneBytes);
    SumConcat(s.done, ScanDones(fs), DoneGood);
    ScanSum(fs, DoneWeight, 1);
    ScanSum(fs, DoneSize, 0);
    ScanSum(fs, DoneBytes, 0);
    ScanSum(fs, DoneGood, 0);
    DoneScans(s.done, fs);
    SumAtMost(InFlight(s), MarkOf(s.highWater), WeightOf);
  }

  lemma AdmittedCounts(s: Plan, t: Plan, fs: seq<Failure>)
    requires OutcomesCounted(s) && t.done == s.done + ScanDones(fs)
    requires t.outcomes == s.outcomes.(failed := s.outcomes.failed + |fs|)
    requires t.retained == s.retained + ScanResults(fs)
    ensures OutcomesCounted(t)
  {
    DoneScans(s.done, fs);
    SumConcat(s.done, ScanDones(fs), Ended(Succeeded));
    SumConcat(s.done, ScanDones(fs), Ended(Skipped));
    SumConcat(s.done, ScanDones(fs), Ended(Failed));
    SumConcat(s.done, ScanDones(fs), Ended(CopiedSourceRetained));
    ScanSum(fs, Ended(Succeeded), 0);
    ScanSum(fs, Ended(Skipped), 0);
    ScanSum(fs, Ended(Failed), 1);
    ScanSum(fs, Ended(CopiedSourceRetained), 0);
  }

  lemma AdmittedAttempts(s: Plan, t: Plan, added: seq<File>)
    requires AttemptsCounted(s) && multiset(InFlight(t)) == multiset(InFlight(s)) + multiset(added)
    requires forall f, g :: f in added && g in All(s) ==> f.id != g.id
    requires forall f :: f in added ==> f.id !in s.attemptCounts
    requires t.begun == s.begun + FirstAttempts(added) && t.attemptCounts == s.attemptCounts && t.parked == s.parked
    ensures AttemptsCounted(t)
  {
    AddedSum(InFlight(s), InFlight(t), added, WeightOf);
    forall f | f in InFlight(t)
      ensures f.id in t.begun && t.begun[f.id] >= 1 && Attempt(t, f.id) == Min(MAX32, t.begun[f.id])
    {
      if f in added {
        assert FirstAttempts(added)[f.id] == 1;
      } else {
        assert f in All(s) && f.id !in FirstAttempts(added);
      }
    }
  }

  lemma AdmittedMarks(s: Plan, t: Plan, added: seq<File>)
    requires MarksBounded(s) && multiset(InFlight(t)) == multiset(InFlight(s)) + multiset(added)
    requires forall f, g :: f in added && g in All(s) ==> f.id != g.id
    requires t.highWater == s.highWater
    ensures MarksBounded(t)
    ensures forall f :: f in InFlight(t) ==> f in InFlight(s) || f.id !in s.highWater
  {
    AddedSum(InFlight(s), InFlight(t), added, WeightOf);
    FreshMarks(s, added);
    assert IdSet(InFlight(t)) == IdSet(InFlight(s)) + IdSet(added);
  }

  lemma AdmittedRest(k: Keys, s: Plan, t: Plan, added: seq<File>, fs: seq<Failure>)
    requires Admits(k, s, t, added, fs) && MarksBounded(s) && AttemptsCounted(s) && CountsKnown(s)
    requires ParkedSound(s) && WritesCover(s)
    ensures MarksBounded(t) && AttemptsCounted(t) && CountsKnown(t) && ParkedSound(t) && WritesCover(t)
  {
    AdmittedAttempts(s, t, added);
    AdmittedMarks(s, t, added);
  }

  lemma Admitted(k: Keys, s: Plan, t: Plan, added: seq<File>, fs: seq<Failure>)
    requires Inv(k, s) && Admits(k, s, t, added, fs)
    ensures Inv(k, t)
  {
    DoneScans(s.done, fs);
    assert IdsSound(t) by { AdmittedIds(s, t, added); }
    assert KeysExact(k, t) by { AdmittedKeys(k, s, t, added); }
    assert WeightsConserved(t) && BytesConserved(t) by { AdmittedSums(k, s, t, added, fs); }
    assert OutcomesCounted(t) by { AdmittedCounts(s, t, fs); }
    AdmittedRest(k, s, t, added, fs);
  }
}
