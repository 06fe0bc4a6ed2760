/** Construction, append and restore: when they accept, and what they keep. */
module PlanEntry {
  import opened Items
  import opened Sequences
  import opened LivePlan
  import opened PlanInvariant
  import opened PlanAdmission

  /** The plan states the byte total of its own files, as every planner plan does. */
  predicate Declared(p: CopyPlan) { p.totalBytes == Sum(p.files, SizeOf) }

  /** The weights a plan brings: its files and its planning failures. */
  function Incoming(p: CopyPlan): nat { Sum(p.files, WeightOf) + |p.failures| }

  lemma {:induction false} SumPointwise(xs: seq<File>, ys: seq<File>, f: File -> nat)
    requires |xs| == |ys| && forall i :: 0 <= i < |xs| ==> f(xs[i]) == f(ys[i])
    ensures Sum(xs, f) == Sum(ys, f)
  {
    if xs != [] {
      forall i | 0 <= i < |xs[1..]|
        ensures f(xs[1..][i]) == f(ys[1..][i])
      {
        assert f(xs[i + 1]) == f(ys[i + 1]);
      }
      SumPointwise(xs[1..], ys[1..], f);
    }
  }

  lemma ScreenedSums(k: Keys, now: Path -> Key, files: seq<File>, taken: set<Key>)
    requires Screen(k, now, files, taken).Accepted?
    ensures var r := Screen(k, now, files, taken).files;
      Sum(r, WeightOf) == Sum(files, WeightOf) && Sum(r, SizeOf) == Sum(files, SizeOf)
  {
    ScreenAccepts(k, now, files, taken);
    SumPointwise(Screen(k, now, files, taken).files, files, WeightOf);
    SumPointwise(Screen(k, now, files, taken).files, files, SizeOf);
  }

  lemma NumberedLike(k: Keys, files: seq<File>, next: nat)
    requires DistinctBy(files, KeyOf(k))
    ensures var r := Numbered(files, next);
      && DistinctBy(r, IdOf) && DistinctBy(r, KeyOf(k)) && KeysOf(k, r) == KeysOf(k, files)
      && Sum(r, WeightOf) == Sum(files, WeightOf) && Sum(r, SizeOf) == Sum(files, SizeOf)
      && forall f :: f in r ==> next <= f.id < next + |files|
  {
    var r := Numbered(files, next);
    SumPointwise(r, files, WeightOf);
    SumPointwise(r, files, SizeOf);
    assert forall i :: 0 <= i < |r| ==> KeyOf(k)(r[i]) == KeyOf(k)(files[i]);
    forall i, j | 0 <= i < j < |r|
      ensures KeyOf(k)(r[i]) != KeyOf(k)(r[j])
    {
      assert KeyOf(k)(files[i]) != KeyOf(k)(files[j]);
    }
    forall key
      ensures key in KeysOf(k, r) <==> key in KeysOf(k, files)
    {
      if key in KeysOf(k, files) {
        var f :| f in files && k.key(f.destination) == key;
        var i :| 0 <= i < |files| && files[i] == f;
        assert r[i] in r;
      }
      if key in KeysOf(k, r) {
        var f :| f in r && k.key(f.destination) == key;
        var i :| 0 <= i < |r| && r[i] == f;
        assert files[i] in files;
      }
    }
  }

  // ---- append ----

  /** Every destination of the plan is fit, unchanged and free. */
  ghost predicate Placeable(k: Keys, now: Path -> Key, files: seq<File>, taken: set<Key>) {
    && DistinctBy(files, KeyOf(k))
    && forall f :: f in files ==>
      && WithPolicy(k, f).Some? && k.key(f.destination) != [] && k.key(f.destination) == now(f.destination)
      && k.key(f.destination) !in taken
  }

  lemma ScreenExact(k: Keys, now: Path -> Key, files: seq<File>, taken: set<Key>)
    ensures Screen(k, now, files, taken).Accepted? <==> Placeable(k, now, files, taken)
  {
    var r := Screen(k, now, files, taken);
    if Placeable(k, now, files, taken) { ScreenRefuses(k, now, files, taken); }
    if r.Accepted? {
      ScreenAccepts(k, now, files, taken);
      forall i, j | 0 <= i < j < |files|
        ensures KeyOf(k)(files[i]) != KeyOf(k)(files[j])
      {
        assert KeyOf(k)(r.files[i]) != KeyOf(k)(r.files[j]);
      }
      forall f | f in files
        ensures k.key(f.destination) != [] && k.key(f.destination) == now(f.destination)
        ensures k.key(f.destination) !in taken
      {
        var i :| 0 <= i < |files| && files[i] == f;
        assert r.files[i] in r.files;
      }
      ScreenPolicies(k, now, files, taken);
    }
  }

  lemma {:induction false} ScreenPolicies(k: Keys, now: Path -> Key, files: seq<File>, taken: set<Key>)
    requires Screen(k, now, files, taken).Accepted?
    ensures forall f :: f in files ==> WithPolicy(k, f).Some?
  {
    if files != [] {
      ScreenPolicies(k, now, files[1..], taken + {k.key(files[0].destination)});
    }
  }

  lemma CommitWith(k: Keys, now: Path -> Key, s: Plan, p: CopyPlan)
    requires IdsSound(s) && Refusal(k, s, p, true) == None && Screen(k, now, p.files, s.reserved).Accepted?
    ensures var r := Screen(k, now, p.files, s.reserved);
      With(s, Commit(s, p, r.files, r.keys), Numbered(r.files, s.nextId))
  {
    var r := Screen(k, now, p.files, s.reserved);
    ScreenAccepts(k, now, p.files, s.reserved);
    NumberedLike(k, r.files, s.nextId);
    CommitList(s, Commit(s, p, r.files, r.keys), Numbered(r.files, s.nextId));
  }

  lemma CommitKeys(k: Keys, now: Path -> Key, s: Plan, p: CopyPlan)
    requires Screen(k, now, p.files, s.reserved).Accepted?
    ensures var r := Screen(k, now, p.files, s.reserved);
      && DistinctBy(Numbered(r.files, s.nextId), KeyOf(k))
      && r.keys == s.reserved + KeysOf(k, Numbered(r.files, s.nextId))
      && forall f :: f in Numbered(r.files, s.nextId) ==> k.key(f.destination) !in s.reserved
  {
    var r := Screen(k, now, p.files, s.reserved);
    var added := Numbered(r.files, s.nextId);
    ScreenAccepts(k, now, p.files, s.reserved);
    NumberedLike(k, r.files, s.nextId);
    forall f | f in added
      ensures k.key(f.destination) !in s.reserved
    {
      var i :| 0 <= i < |added| && added[i] == f;
      assert r.files[i] in r.files;
    }
  }

  lemma CommitCredits(s: Plan, p: CopyPlan, files: seq<File>, keys: set<Key>)
    requires |files| == |p.files| && Sum(files, WeightOf) == Sum(p.files, WeightOf) && Declared(p)
    requires s.counters.weight <= s.counters.total && s.counters.total + Incoming(p) <= MAX64
    requires Sum(Numbered(files, s.nextId), WeightOf) == Sum(files, WeightOf)
    requires Sum(Numbered(files, s.nextId), SizeOf) == Sum(p.files, SizeOf)
    ensures Credits(s, Commit(s, p, files, keys), Numbered(files, s.nextId), p.failures)
  {
  }

  lemma CommitReserves(k: Keys, now: Path -> Key, s: Plan, p: CopyPlan)
    requires CountsKnown(s) && Refusal(k, s, p, true) == None && Screen(k, now, p.files, s.reserved).Accepted?
    ensures var r := Screen(k, now, p.files, s.reserved);
      Reserves(k, s, Commit(s, p, r.files, r.keys), Numbered(r.files, s.nextId))
  {
    hide Screen, DistinctBy, KeysOf, Wrap;
    CommitKeys(k, now, s, p);
    CommitSums(k, now, s, p);
  }

  lemma CommitAdmits(k: Keys, now: Path -> Key, s: Plan, p: CopyPlan)
    requires IdsSound(s) && CountsKnown(s) && s.counters.weight <= s.counters.total
    requires Refusal(k, s, p, true) == None && Declared(p) && s.counters.total + Incoming(p) <= MAX64
    requires Screen(k, now, p.files, s.reserved).Accepted?
    ensures var r := Screen(k, now, p.files, s.reserved);
      Admits(k, s, Commit(s, p, r.files, r.keys), Numbered(r.files, s.nextId), p.failures)
  {
    hide IdsSound, CountsKnown, Refusal, Screen, Commit, With, Reserves, Credits, Incoming, Declared, Numbered;
    var r := Screen(k, now, p.files, s.reserved);
    CommitWith(k, now, s, p);
    CommitReserves(k, now, s, p);
    CommitSums(k, now, s, p);
    CommitCredits(s, p, r.files, r.keys);
  }

  lemma CommitSums(k: Keys, now: Path -> Key, s: Plan, p: CopyPlan)
    requires Screen(k, now, p.files, s.reserved).Accepted?
    ensures var files, added := Screen(k, now, p.files, s.reserved).files,
                                Numbered(Screen(k, now, p.files, s.reserved).files, s.nextId);
      && Sum(added, WeightOf) == Sum(files, WeightOf) == Sum(p.files, WeightOf)
      && Sum(added, SizeOf) == Sum(files, SizeOf) == Sum(p.files, SizeOf)
      && forall f :: f in added ==> f.id >= s.nextId && p.files != []
  {
    var files := Screen(k, now, p.files, s.reserved).files;
    ScreenAccepts(k, now, p.files, s.reserved);
    ScreenedSums(k, now, p.files, s.reserved);
    NumberedLike(k, files, s.nextId);
  }

  lemma CommitList(s: Plan, t: Plan, added: seq<File>)
    requires t.pending == s.pending + added && t.active == s.active && t.parked == s.parked
    ensures multiset(InFlight(t)) == multiset(InFlight(s)) + multiset(added)
  {
  }

  lemma CommitKeeps(k: Keys, now: Path -> Key, s: Plan, p: CopyPlan)
    requires Inv(k, s) && Declared(p) && s.counters.total + Incoming(p) <= MAX64
    requires Refusal(k, s, p, true) == None && Screen(k, now, p.files, s.reserved).Accepted?
    ensures var r := Screen(k, now, p.files, s.reserved); Inv(k, Commit(s, p, r.files, r.keys))
  {
    var r := Screen(k, now, p.files, s.reserved);
    ResolvedAtMostTotal(k, s);
    CommitAdmits(k, now, s, p);
    Admitted(k, s, Commit(s, p, r.files, r.keys), Numbered(r.files, s.nextId), p.failures);
  }

  lemma AppendedShape(k: Keys, now: Path -> Key, s: Plan, p: CopyPlan, allowDrained: bool)
    ensures var (t, r) := Append(k, now, s, p, allowDrained);
      if r == Appended then
        var x := Screen(k, now, p.files, s.reserved);
        Refusal(k, s, p, true) == None && x.Accepted? && t == Commit(s, p, x.files, x.keys)
      else t == s
  {
    ScreenReason(k, now, p.files, s.reserved);
  }

  /** An append keeps the invariant exactly when the plan declares its own byte total and the
      weights it brings, planning failures included, still fit 64 bits: the code takes the
      total as declared, and checks the files' weights but not the failures'. */
  lemma AppendKeepsIff(k: Keys, now: Path -> Key, s: Plan, p: CopyPlan, allowDrained: bool)
    requires Inv(k, s)
    ensures var (t, r) := Append(k, now, s, p, allowDrained);
      if r == Appended then Inv(k, t) <==> Declared(p) && s.counters.total + Incoming(p) <= MAX64 else t == s
  {
    AppendedShape(k, now, s, p, allowDrained);
    if Append(k, now, s, p, allowDrained).1 == Appended {
      if Declared(p) && s.counters.total + Incoming(p) <= MAX64 {
        CommitKeeps(k, now, s, p);
      } else if Declared(p) {
        AppendOverflows(k, now, s, p);
      } else {
        AppendMiscounts(k, now, s, p);
      }
    }
  }

  lemma AppendMiscounts(k: Keys, now: Path -> Key, s: Plan, p: CopyPlan)
    requires BytesConserved(s) && Screen(k, now, p.files, s.reserved).Accepted? && !Declared(p)
    ensures var r := Screen(k, now, p.files, s.reserved); !BytesConserved(Commit(s, p, r.files, r.keys))
  {
    var r := Screen(k, now, p.files, s.reserved);
    var t, added := Commit(s, p, r.files, r.keys), Numbered(r.files, s.nextId);
    CommitSums(k, now, s, p);
    CommitList(s, t, added);
    AddedSum(InFlight(s), InFlight(t), added, SizeOf);
    SumConcat(s.done, ScanDones(p.failures), DoneSize);
    ScanSum(p.failures, DoneSize, 0);
  }

  lemma AppendOverflows(k: Keys, now: Path -> Key, s: Plan, p: CopyPlan)
    requires WeightsConserved(s) && Screen(k, now, p.files, s.reserved).Accepted?
    requires s.counters.total + Incoming(p) > MAX64
    ensures var r := Screen(k, now, p.files, s.reserved); !WeightsConserved(Commit(s, p, r.files, r.keys))
  {
    var r := Screen(k, now, p.files, s.reserved);
    var t, added := Commit(s, p, r.files, r.keys), Numbered(r.files, s.nextId);
    ScreenAccepts(k, now, p.files, s.reserved);
    ScreenedSums(k, now, p.files, s.reserved);
    NumberedLike(k, r.files, s.nextId);
    CommitList(s, t, added);
    AddedSum(InFlight(s), InFlight(t), added, WeightOf);
    SumConcat(s.done, ScanDones(p.failures), DoneWeight);
    ScanSum(p.failures, DoneWeight, 1);
  }

  const HUGE := CopyPlan([], [File(1, "s", "d\\a", MAX64, Some(false))], [], "d", Copy, MAX64, MAX64, [])
  const FAILING := CopyPlan([], [], [], "d", Copy, 0, 0, [Failure("s\\b", "d\\b", 5)])

  lemma HugePlan(k: Keys)
    requires k.key("d\\a") != []
    ensures Declared(HUGE) && Incoming(HUGE) == MAX64 && Create(k, HUGE).Some?
    ensures Inv(k, Create(k, HUGE).value)
    ensures var t := Create(k, HUGE).value;
      t.counters.total == MAX64 && t.root == "d" && t.operation == Copy && t.totalBytes == MAX64 && t.totalFiles == 1
  {
    hide Inv;
    assert HUGE.files[1..] == [];
    SumOne(HUGE.files[0], WeightOf);
    SumOne(HUGE.files[0], SizeOf);
    ScreenExact(k, k.key, HUGE.files, {});
    ScreenedSums(k, k.key, HUGE.files, {});
    CreateKeepsIff(k, HUGE);
  }

  /** The overflow is reachable: a file as large as the counter, then a planning failure. */
  lemma AppendOverflowExample(k: Keys, now: Path -> Key)
    requires k.key("d\\a") != []
    ensures Create(k, HUGE).Some? && Inv(k, Create(k, HUGE).value) && Declared(FAILING)
    ensures Append(k, now, Create(k, HUGE).value, FAILING, true).1 == Appended
    ensures Append(k, now, Create(k, HUGE).value, FAILING, true).0.counters.total == 0
    ensures !Inv(k, Append(k, now, Create(k, HUGE).value, FAILING, true).0)
  {
    hide Inv, Create;
    HugePlan(k);
    var s := Create(k, HUGE).value;
    assert Screen(k, now, [], s.reserved) == Accepted([], s.reserved);
    assert Refusal(k, s, FAILING, true) == None;
    AppendKeepsIff(k, now, s, FAILING, true);
  }

  /** Append accepts exactly plans for this destination and operation, whose files fit the
      remaining ids, bytes and weights, and whose destinations are fit, unchanged and free. */
  lemma AppendAcceptsIff(k: Keys, now: Path -> Key, s: Plan, p: CopyPlan, allowDrained: bool)
    requires Inv(k, s)
    ensures Append(k, now, s, p, allowDrained).1 == Appended <==>
      && (allowDrained || InFlight(s) != [])
      && k.key(p.root) == k.key(s.root) && p.operation == s.operation
      && s.totalBytes + p.totalBytes <= MAX64 && s.totalFiles + |p.files| <= MAX64
      && (p.files == [] || (s.nextId != 0 && s.nextId + |p.files| - 1 <= MAX64))
      && s.counters.total + Sum(p.files, WeightOf) <= MAX64
      && Placeable(k, now, p.files, s.reserved)
  {
    ScreenExact(k, now, p.files, s.reserved);
    ScreenReason(k, now, p.files, s.reserved);
    assert InFlight(s) == [] <==> s.pending == [] && s.active == [] && |ParkedFiles(s.parked)| == 0;
  }

  lemma {:induction false} ScreenReason(k: Keys, now: Path -> Key, files: seq<File>, taken: set<Key>)
    ensures var r := Screen(k, now, files, taken);
      r.Refused? ==> r.reason == InternalFailure || r.reason == DestinationCollision
  {
    if files != [] {
      match WithPolicy(k, files[0]) {
        case None =>
        case Some(f) => ScreenReason(k, now, files[1..], taken + {k.key(f.destination)});
      }
    }
  }

  // ---- construction ----

  function Empty(p: CopyPlan): Plan {
    Plan(p.directories, 0, p.roots, p.root, p.operation, [], [], [], {}, 0, 0, 0, 0, 0, 1, [], map[], map[], map[],
         Counters(0, 0, 0, 0), Outcomes(0, 0, 0, 0), [], map[], [], {})
  }

  lemma EmptyLists(k: Keys, p: CopyPlan)
    ensures InFlight(Empty(p)) == [] && All(Empty(p)) == [] && Holders(Empty(p)) == []
    ensures KeysOf(k, []) == {} && IdSet([]) == {}
  {
  }

  lemma EmptySound(k: Keys, p: CopyPlan)
    ensures Inv(k, Empty(p))
  {
    EmptyLists(k, p);
    hide InFlight, All, Holders, KeysOf, IdSet;
    var s := Empty(p);
    assert IdsSound(s) && KeysExact(k, s);
    assert WeightsConserved(s) && BytesConserved(s);
    assert OutcomesCounted(s) && MarksBounded(s);
    assert AttemptsCounted(s) && WritesCover(s);
  }

  lemma {:induction false} NextIdAbove(files: seq<File>, next: nat)
    requires next <= MAX64 && forall f :: f in files ==> f.id <= MAX64
    ensures var n := NextId(files, next);
      && n <= MAX64 && (n != 0 ==> next != 0 && next <= n)
      && forall f :: f in files && n != 0 ==> f.id < n
  {
    if files != [] {
      NextIdAbove(files[1..], if files[0].id == MAX64 then 0
                              else if next != 0 then Max(next, files[0].id + 1) else next);
    }
  }

  lemma ScreenedIds(k: Keys, p: CopyPlan)
    requires Screen(k, k.key, p.files, {}).Accepted? && DistinctBy(p.files, IdOf)
    requires forall f :: f in p.files ==> f.id <= MAX64
    ensures var files := Screen(k, k.key, p.files, {}).files;
      DistinctBy(files, IdOf) && forall f :: f in files ==> f.id <= MAX64
  {
    var files := Screen(k, k.key, p.files, {}).files;
    ScreenAccepts(k, k.key, p.files, {});
    assert forall i :: 0 <= i < |files| ==> files[i].id == p.files[i].id;
    forall i, j | 0 <= i < j < |files|
      ensures IdOf(files[i]) != IdOf(files[j])
    {
      assert IdOf(p.files[i]) != IdOf(p.files[j]);
    }
    forall f | f in files
      ensures f.id <= MAX64
    {
      var i :| 0 <= i < |files| && files[i] == f;
      assert p.files[i] in p.files;
    }
  }

  lemma CreateWith(k: Keys, p: CopyPlan)
    requires DistinctBy(p.files, IdOf) && forall f :: f in p.files ==> f.id <= MAX64
    requires Create(k, p).Some?
    ensures With(Empty(p), Create(k, p).value, Screen(k, k.key, p.files, {}).files)
  {
    var files, t := Screen(k, k.key, p.files, {}).files, Create(k, p).value;
    ScreenedIds(k, p);
    NextIdAbove(files, 1);
    assert InFlight(t) == files && InFlight(Empty(p)) == [] && All(Empty(p)) == [];
  }

  lemma CreateCredits(p: CopyPlan, t: Plan, files: seq<File>, keys: set<Key>)
    requires |files| == |p.files| && Sum(files, WeightOf) == Sum(p.files, WeightOf) && Declared(p)
    requires Sum(files, SizeOf) == Sum(p.files, SizeOf) && Incoming(p) <= MAX64
    requires t == RecordFailures(
      Plan(p.directories, 0, p.roots, p.root, p.operation, files, [], [], keys,
           p.totalBytes, |files|, 0, 0, p.largest, NextId(files, 1), [], map[], map[], map[],
           Counters(0, 0, 0, Wrap(Sum(files, WeightOf))), Outcomes(0, 0, 0, 0),
           [], FirstAttempts(files), [], {}),
      p.failures)
    ensures Credits(Empty(p), t, files, p.failures)
  {
    assert map[] + FirstAttempts(files) == FirstAttempts(files);
  }

  lemma CreateAdmits(k: Keys, p: CopyPlan)
    requires DistinctBy(p.files, IdOf) && (forall f :: f in p.files ==> f.id <= MAX64) && Declared(p)
    requires Create(k, p).Some? && Incoming(p) <= MAX64
    ensures Admits(k, Empty(p), Create(k, p).value, Screen(k, k.key, p.files, {}).files, p.failures)
  {
    var r := Screen(k, k.key, p.files, {});
    CreateWith(k, p);
    ScreenAccepts(k, k.key, p.files, {});
    ScreenedSums(k, k.key, p.files, {});
    CreateCredits(p, Create(k, p).value, r.files, r.keys);
  }

  /** The plan's ids are 64-bit numbers, each used once. */
  ghost predicate Identified(p: CopyPlan) { DistinctBy(p.files, IdOf) && forall f :: f in p.files ==> f.id <= MAX64 }

  /** The constructor establishes the invariant exactly when the plan's ids are sound, it
      declares its own byte total and its weights fit 64 bits, none of which it checks. */
  lemma CreateKeepsIff(k: Keys, p: CopyPlan)
    ensures Create(k, p).Some? <==> Placeable(k, k.key, p.files, {})
    ensures Create(k, p).Some? ==>
      (Inv(k, Create(k, p).value) <==> Identified(p) && Declared(p) && Incoming(p) <= MAX64)
  {
    ScreenExact(k, k.key, p.files, {});
    CreatedIff(k, p);
    hide Inv, IdsSound, Create, Identified, Declared, Incoming;
    if Create(k, p).Some? {
      if Identified(p) && Declared(p) && Incoming(p) <= MAX64 {
        CreateKeeps(k, p);
      } else if !Identified(p) {
        if Inv(k, Create(k, p).value) {
          SoundIds(k, Create(k, p).value);
          CreateMisnumbers(k, p);
        }
      } else {
        CreateMiscounts(k, p);
      }
    }
  }

  lemma CreatedIff(k: Keys, p: CopyPlan)
    ensures Create(k, p).Some? <==> Screen(k, k.key, p.files, {}).Accepted?
  {
    hide Screen;
  }

  lemma SoundIds(k: Keys, s: Plan)
    requires Inv(k, s)
    ensures IdsSound(s)
  {
  }

  lemma CreateKeeps(k: Keys, p: CopyPlan)
    requires Create(k, p).Some? && Identified(p) && Declared(p) && Incoming(p) <= MAX64
    ensures Inv(k, Create(k, p).value)
  {
    EmptySound(k, p);
    CreateAdmits(k, p);
    hide Create, Empty, Admits, Inv;
    Admitted(k, Empty(p), Create(k, p).value, Screen(k, k.key, p.files, {}).files, p.failures);
  }

  lemma CreateMiscounts(k: Keys, p: CopyPlan)
    requires Create(k, p).Some? && (!Declared(p) || Incoming(p) > MAX64)
    ensures !Inv(k, Create(k, p).value)
  {
    var t := Create(k, p).value;
    ScreenedSums(k, k.key, p.files, {});
    assert InFlight(t) == Screen(k, k.key, p.files, {}).files;
    SumConcat([], ScanDones(p.failures), DoneWeight);
    ScanSum(p.failures, DoneWeight, 1);
    SumConcat([], ScanDones(p.failures), DoneSize);
    ScanSum(p.failures, DoneSize, 0);
  }

  lemma CreateMisnumbers(k: Keys, p: CopyPlan)
    requires Create(k, p).Some? && IdsSound(Create(k, p).value)
    ensures Identified(p)
  {
    hide IdsSound, Identified, Screen, DistinctBy;
    CreatedIff(k, p);
    ScreenAccepts(k, k.key, p.files, {});
    var t, files := Create(k, p).value, Screen(k, k.key, p.files, {}).files;
    assert t.pending == files;
    QueuedIds(t);
    SameNumbers(p, files);
  }

  lemma QueuedIds(s: Plan)
    requires IdsSound(s)
    ensures DistinctBy(s.pending, IdOf) && forall f :: f in s.pending ==> f.id <= MAX64
  {
    hide Settled;
    forall i, j | 0 <= i < j < |s.pending|
      ensures IdOf(s.pending[i]) != IdOf(s.pending[j])
    {
      assert All(s)[i] == s.pending[i] && All(s)[j] == s.pending[j];
      assert IdOf(All(s)[i]) != IdOf(All(s)[j]);
    }
    assert forall f :: f in s.pending ==> f in All(s);
  }

  lemma SameNumbers(p: CopyPlan, files: seq<File>)
    requires |files| == |p.files| && forall i :: 0 <= i < |files| ==> files[i].id == p.files[i].id
    requires DistinctBy(files, IdOf) && forall f :: f in files ==> f.id <= MAX64
    ensures Identified(p)
  {
    forall i, j | 0 <= i < j < |p.files|
      ensures IdOf(p.files[i]) != IdOf(p.files[j])
    {
      assert IdOf(files[i]) != IdOf(files[j]);
    }
    forall f | f in p.files
      ensures f.id <= MAX64
    {
      var i :| 0 <= i < |p.files| && p.files[i] == f;
      assert files[i] in files;
    }
  }

  const TWO := CopyPlan([], [File(1, "s", "d\\a", MAX64, Some(false)), File(2, "t", "d\\b", 0, Some(false))],
                        [], "d", Copy, MAX64, MAX64, [])
  const UNDECLARED := CopyPlan([], [File(1, "s", "d\\a", MAX64, Some(false))], [], "d", Copy, 0, MAX64, [])

  /** The constructor wraps too: a maximal file and an empty one, whose sizes fit 64 bits but
      whose weights do not, leave a total weight of zero. */
  lemma CreateOverflowExample(k: Keys)
    requires k.key("d\\a") != [] && k.key("d\\b") != [] && k.key("d\\a") != k.key("d\\b")
    ensures Identified(TWO) && Declared(TWO) && TWO.totalBytes <= MAX64
    ensures Create(k, TWO).Some? && Create(k, TWO).value.counters.total == 0 && !Inv(k, Create(k, TWO).value)
  {
    hide Inv;
    TwoSums();
    ScreenExact(k, k.key, TWO.files, {});
    ScreenedSums(k, k.key, TWO.files, {});
    CreateKeepsIff(k, TWO);
    hide Screen, Sum, Placeable;
  }

  lemma TwoSums()
    ensures Sum(TWO.files, WeightOf) == MAX64 + 1 && Sum(TWO.files, SizeOf) == MAX64
  {
    var rest := TWO.files[1..];
    assert rest[1..] == [] && rest[0] == TWO.files[1];
    assert Sum(rest, WeightOf) == 1 && Sum(rest, SizeOf) == 0;
  }

  /** Nor does it look at the byte total it is given. */
  lemma CreateMiscountExample(k: Keys)
    requires k.key("d\\a") != []
    ensures Identified(UNDECLARED) && Incoming(UNDECLARED) <= MAX64
    ensures Create(k, UNDECLARED).Some? && !Inv(k, Create(k, UNDECLARED).value)
  {
    hide Inv;
    assert UNDECLARED.files[1..] == [];
    SumOne(UNDECLARED.files[0], WeightOf);
    SumOne(UNDECLARED.files[0], SizeOf);
    ScreenExact(k, k.key, UNDECLARED.files, {});
    CreateKeepsIff(k, UNDECLARED);
  }

  // ---- restore ----

  lemma RestoreList(k: Keys, s: Plan, r: Recovery)
    requires CanRestore(k, s, r)
    ensures var t := Restore(k, s, r);
      InFlight(t) == InFlight(s) + [Last(t.parked).file]
  {
    ParkedFilesSnoc(s.parked, Last(Restore(k, s, r).parked));
  }

  lemma RestoreIds(k: Keys, s: Plan, r: Recovery)
    requires CanRestore(k, s, r) && IdsSound(s)
    ensures With(s, Restore(k, s, r), [Last(Restore(k, s, r).parked).file])
    ensures IdsSound(Restore(k, s, r))
  {
    RestoreList(k, s, r);
    AdmittedIds(s, Restore(k, s, r), [Last(Restore(k, s, r).parked).file]);
  }

  lemma RestoreSums(k: Keys, s: Plan, r: Recovery)
    requires CanRestore(k, s, r) && IdsSound(s) && MarksBounded(s) && WeightsConserved(s) && BytesConserved(s)
    ensures WeightsConserved(Restore(k, s, r)) && BytesConserved(Restore(k, s, r))
  {
    var t := Restore(k, s, r);
    var f := Last(t.parked).file;
    RestoreList(k, s, r);
    SumSnoc(InFlight(s), f, WeightOf);
    SumSnoc(InFlight(s), f, SizeOf);
    SumSnoc(InFlight(s), f, MarkOf(t.highWater));
    assert forall g :: g in InFlight(s) ==> g in All(s) && g.id != f.id;
    MarksSame(InFlight(s), s.highWater, t.highWater);
  }

  lemma RestoreMembers(k: Keys, s: Plan, r: Recovery)
    requires CanRestore(k, s, r) && IdsSound(s)
    ensures var t := Restore(k, s, r);
      && (forall f :: f in InFlight(t) ==> f == Last(t.parked).file || (f in InFlight(s) && f.id < s.nextId))
      && (forall q :: q in t.parked ==> q == Last(t.parked) || (q in s.parked && q.file.id < s.nextId))
      && IdSet(InFlight(t)) == IdSet(InFlight(s)) + {s.nextId}
  {
    var t := Restore(k, s, r);
    var p := Last(t.parked);
    RestoreList(k, s, r);
    forall f | f in InFlight(t)
      ensures f == p.file || (f in InFlight(s) && f.id < s.nextId)
    {
      if f in InFlight(s) { assert f in All(s); }
    }
    forall q | q in t.parked
      ensures q == p || (q in s.parked && q.file.id < s.nextId)
    {
      if q in s.parked {
        var i :| 0 <= i < |s.parked| && s.parked[i] == q;
        ParkedMember(s, i);
        assert q.file in All(s);
      }
    }
  }

  lemma RestoreMarks(k: Keys, s: Plan, r: Recovery)
    requires CanRestore(k, s, r) && IdsSound(s) && MarksBounded(s) && WritesCover(s)
    ensures MarksBounded(Restore(k, s, r)) && WritesCover(Restore(k, s, r))
  {
    RestoreMembers(k, s, r);
    hide IdsSound, InFlight, IdSet, Written, Sum, Wrap, CanRestore;
  }

  lemma RestoreAttempts(k: Keys, s: Plan, r: Recovery)
    requires CanRestore(k, s, r) && r.attempts <= MAX32 && IdsSound(s) && AttemptsCounted(s)
    ensures AttemptsCounted(Restore(k, s, r))
  {
    var t := Restore(k, s, r);
    RestoreMembers(k, s, r);
    forall f | f in InFlight(t)
      ensures f.id in t.begun && t.begun[f.id] >= 1 && Attempt(t, f.id) == Min(MAX32, t.begun[f.id])
    {
      if f != Last(t.parked).file { assert f in InFlight(s) && f.id != s.nextId; }
    }
  }

  lemma RestoreRest(k: Keys, s: Plan, r: Recovery)
    requires CanRestore(k, s, r) && IdsSound(s) && CountsKnown(s) && ParkedSound(s)
    ensures CountsKnown(Restore(k, s, r)) && ParkedSound(Restore(k, s, r))
  {
    RestoreMembers(k, s, r);
  }

  lemma RestoreKeys(k: Keys, s: Plan, r: Recovery)
    requires CanRestore(k, s, r) && KeysExact(k, s)
    ensures KeysExact(k, Restore(k, s, r))
  {
    var t := Restore(k, s, r);
    var f := Last(t.parked).file;
    RestoreList(k, s, r);
    assert KeysOf(k, [f]) == {k.key(r.destination)};
    AdmittedKeys(k, s, t, [f]);
  }

  lemma RestoreKeeps(k: Keys, s: Plan, r: Recovery)
    requires Inv(k, s) && r.attempts <= MAX32
    ensures Inv(k, Restore(k, s, r))
  {
    if CanRestore(k, s, r) {
      var t := Restore(k, s, r);
      assert IdsSound(t) by { RestoreIds(k, s, r); }
      assert KeysExact(k, t) by { RestoreKeys(k, s, r); }
      assert WeightsConserved(t) && BytesConserved(t) by { RestoreSums(k, s, r); }
      assert MarksBounded(t) && WritesCover(t) by { RestoreMarks(k, s, r); }
      assert AttemptsCounted(t) by { RestoreAttempts(k, s, r); }
      RestoreRest(k, s, r);
    }
  }
}
