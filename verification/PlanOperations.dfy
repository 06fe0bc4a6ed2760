/** Each operation of the live plan keeps the invariant. */
module PlanOperations {
  import opened Items
  import opened Sequences
  import opened LivePlan
  import opened PlanInvariant

  // ---- items that only change lists ----

  ghost predicate Bookkept(s: Plan) { AttemptsCounted(s) && ParkedSound(s) }

  /** The same items in other lists: what `Shuffled` asks for. */
  ghost predicate Moves(s: Plan, t: Plan) {
    && SameBooks(s, t) && multiset(InFlight(t)) == multiset(InFlight(s)) && Bookkept(t)
    && t.materialized == s.materialized
    && t.attemptCounts.Keys <= s.attemptCounts.Keys + IdSet(InFlight(s))
    && t.attemptBytes.Keys <= s.attemptBytes.Keys
    && forall id :: id in t.attemptBytes ==> t.attemptBytes[id] == s.attemptBytes[id]
  }

  lemma Moved(k: Keys, s: Plan, t: Plan)
    requires Inv(k, s) && Moves(s, t)
    ensures Inv(k, t)
  {
    Shuffled(k, s, t);
  }

  /** Attempt numbers do not depend on which list an item is in. */
  lemma StillBookkept(s: Plan, t: Plan)
    requires Bookkept(s) && multiset(InFlight(t)) == multiset(InFlight(s))
    requires t.attemptCounts == s.attemptCounts && t.begun == s.begun
    requires forall p :: p in t.parked && p !in s.parked ==>
      && p.incident.attempts == Attempt(s, p.file.id)
      && p.incident.fileId == p.file.id
      && p.incident.source == p.file.source && p.incident.destination == p.file.destination
      && Matches(p.recovery, p.file, p.incident.preexisted, p.incident.action)
    ensures Bookkept(t)
  {
    SameMembers(InFlight(s), InFlight(t));
  }

  lemma AcquireMoves(s: Plan)
    requires Bookkept(s) && s.pending != []
    ensures Moves(s, Acquire(s))
  {
    var t := Acquire(s);
    assert multiset(InFlight(t)) == multiset(InFlight(s)) by {
      assert s.pending == [s.pending[0]] + t.pending;
    }
    StillBookkept(s, t);
  }

  lemma AcquireKeeps(k: Keys, s: Plan)
    requires Inv(k, s)
    ensures Inv(k, Acquire(s))
  {
    if s.pending != [] {
      AcquireMoves(s);
      Moved(k, s, Acquire(s));
    }
  }

  lemma ReleaseBag(s: Plan, i: nat)
    requires i < |s.active|
    ensures multiset([s.active[i]] + s.pending + RemoveAt(s.active, i) + ParkedFiles(s.parked)) == multiset(InFlight(s))
  {
    ActiveMember(s, i);
    assert s.active[i] in multiset(InFlight(s));
    assert [s.active[i]] + s.pending + RemoveAt(s.active, i) + ParkedFiles(s.parked)
           == [s.active[i]] + (s.pending + RemoveAt(s.active, i) + ParkedFiles(s.parked));
  }

  lemma ReleaseMoves(s: Plan, id: nat)
    requires Bookkept(s) && HasId(s.active, id)
    ensures Moves(s, Release(s, id))
  {
    ReleaseBag(s, Find(s.active, id));
    StillBookkept(s, Release(s, id));
  }

  lemma ReleaseKeeps(k: Keys, s: Plan, id: nat)
    requires Inv(k, s)
    ensures Inv(k, Release(s, id))
  {
    if HasId(s.active, id) {
      ReleaseMoves(s, id);
      Moved(k, s, Release(s, id));
    }
  }

  /** Any reordering of the queue, by whatever call, keeps the invariant. */
  lemma ReorderKeeps(k: Keys, s: Plan, pending: seq<File>)
    requires Inv(k, s) && multiset(pending) == multiset(s.pending)
    ensures Inv(k, s.(pending := pending))
  {
    var t := s.(pending := pending);
    assert multiset(InFlight(t)) == multiset(InFlight(s));
    StillBookkept(s, t);
    Moved(k, s, t);
  }

  ghost predicate Matches(r: Option<Recovery>, f: File, pre: bool, action: RecoveryAction) {
    r.Some? ==>
      && action == RetrySourceRemoval && r.value.source == f.source
      && r.value.destination == f.destination && r.value.preexisted == pre
  }

  lemma ParkBag(s: Plan, i: nat, p: ParkedFile)
    requires i < |s.active| && p.file == s.active[i]
    ensures multiset(s.pending + RemoveAt(s.active, i) + ParkedFiles(s.parked + [p])) == multiset(InFlight(s))
  {
    ActiveMember(s, i);
    assert s.active[i] in multiset(InFlight(s));
    ParkedFilesSnoc(s.parked, p);
    assert s.pending + RemoveAt(s.active, i) + ParkedFiles(s.parked + [p])
           == s.pending + RemoveAt(s.active, i) + ParkedFiles(s.parked) + [p.file];
  }

  lemma ParkAsMoves(s: Plan, i: nat, hresult: int, pre: bool, action: RecoveryAction, r: Option<Recovery>)
    requires Bookkept(s) && i < |s.active| && Matches(r, s.active[i], pre, action)
    ensures Moves(s, ParkAs(s, i, hresult, pre, action, r))
  {
    var t := ParkAs(s, i, hresult, pre, action, r);
    ParkBag(s, i, Last(t.parked));
    assert forall q :: q in t.parked ==> q in s.parked || q == Last(t.parked);
    StillBookkept(s, t);
  }

  lemma ParkKeeps(k: Keys, s: Plan, id: nat, hresult: int, pre: bool, action: RecoveryAction)
    requires Inv(k, s)
    ensures Inv(k, Park(s, id, hresult, pre, action))
  {
    if HasId(s.active, id) {
      ParkAsMoves(s, Find(s.active, id), hresult, pre, action, None);
      Moved(k, s, Park(s, id, hresult, pre, action));
    }
  }

  lemma ParkRemovalKeeps(k: Keys, s: Plan, id: nat, hresult: int, pre: bool, a: Fingerprint, b: Fingerprint)
    requires Inv(k, s)
    ensures Inv(k, ParkRemoval(s, id, hresult, pre, a, b))
  {
    if HasId(s.active, id) {
      var f := s.active[Find(s.active, id)];
      ParkAsMoves(s, Find(s.active, id), hresult, pre, RetrySourceRemoval,
                  Some(Recovery(f.id, hresult, f.source, f.destination, pre, Attempt(s, f.id), a, b)));
      Moved(k, s, ParkRemoval(s, id, hresult, pre, a, b));
    }
  }

  /** Two parked entries with one id are one entry. */
  lemma ParkedOnce(s: Plan, i: nat, j: nat)
    requires DistinctBy(InFlight(s), IdOf) && i < |s.parked| && j < |s.parked|
    ensures s.parked[i].file.id == s.parked[j].file.id ==> i == j
  {
    var base := |s.pending| + |s.active|;
    assert InFlight(s)[base + i] == s.parked[i].file && InFlight(s)[base + j] == s.parked[j].file;
    if i < j {
      assert IdOf(InFlight(s)[base + i]) != IdOf(InFlight(s)[base + j]);
    } else if j < i {
      assert IdOf(InFlight(s)[base + j]) != IdOf(InFlight(s)[base + i]);
    }
  }

  lemma FlightIds(s: Plan)
    requires IdsSound(s)
    ensures DistinctBy(InFlight(s), IdOf)
  {
    assert multiset(InFlight(s)) <= multiset(All(s));
    DistinctSubset(All(s), InFlight(s), IdOf);
  }

  lemma UnparkBag(s: Plan, i: nat)
    requires i < |s.parked|
    ensures multiset([s.parked[i].file] + s.pending + s.active + ParkedFiles(RemoveAt(s.parked, i)))
            == multiset(InFlight(s))
  {
    ParkedMember(s, i);
    assert s.parked[i].file in multiset(InFlight(s));
    assert [s.parked[i].file] + s.pending + s.active + ParkedFiles(RemoveAt(s.parked, i))
           == [s.parked[i].file] + (s.pending + s.active + ParkedFiles(RemoveAt(s.parked, i)));
  }

  lemma OtherParked(s: Plan, i: nat)
    requires DistinctBy(InFlight(s), IdOf) && i < |s.parked|
    ensures forall q :: q in RemoveAt(s.parked, i) ==> q in s.parked && q.file.id != s.parked[i].file.id
  {
    forall q | q in RemoveAt(s.parked, i)
      ensures q in s.parked && q.file.id != s.parked[i].file.id
    {
      var j :| 0 <= j < |s.parked| - 1 && RemoveAt(s.parked, i)[j] == q;
      ParkedOnce(s, i, if j < i then j else j + 1);
    }
  }

  lemma UnparkCounts(s: Plan, id: nat, i: nat)
    requires AttemptsCounted(s) && DistinctBy(InFlight(s), IdOf)
    requires i == Find(ParkedFiles(s.parked), id) < |s.parked| && s.parked[i].incident.action == RetryTransfer
    requires multiset(InFlight(Unpark(s, id))) == multiset(InFlight(s))
    ensures AttemptsCounted(Unpark(s, id))
  {
    var t := Unpark(s, id);
    SameMembers(InFlight(s), InFlight(t));
    OtherParked(s, i);
    ParkedMember(s, i);
    assert s.parked[i] in s.parked && s.parked[i].file.id == id;
    AttemptsAfter(s, t, id, s.parked[i].file);
  }

  lemma UnparkMoves(s: Plan, id: nat, i: nat)
    requires Bookkept(s) && DistinctBy(InFlight(s), IdOf)
    requires i == Find(ParkedFiles(s.parked), id) < |s.parked| && s.parked[i].incident.action == RetryTransfer
    ensures Moves(s, Unpark(s, id))
  {
    UnparkBag(s, i);
    UnparkCounts(s, id, i);
    OtherParked(s, i);
    ParkedMember(s, i);
  }

  /** One more attempt begun for one item keeps the attempt numbers of all. */
  lemma AttemptsAfter(s: Plan, t: Plan, id: nat, f: File)
    requires AttemptsCounted(s) && f in InFlight(s) && f.id == id
    requires forall x :: x in InFlight(t) ==> x in InFlight(s)
    requires t.begun == s.begun[id := Get(s.begun, id, 0) + 1]
    requires t.attemptCounts == s.attemptCounts[id := Bump(Attempt(s, id))]
    requires forall q :: q in t.parked ==>
      if q.file.id == id then q.incident.attempts == Bump(Attempt(s, id)) else q in s.parked
    ensures AttemptsCounted(t)
  {
    forall x | x in InFlight(t)
      ensures x.id in t.begun && t.begun[x.id] >= 1 && Attempt(t, x.id) == Min(MAX32, t.begun[x.id])
    {
      if x.id == id { assert Attempt(s, id) == Min(MAX32, s.begun[id]); }
    }
  }

  lemma UnparkKeeps(k: Keys, s: Plan, id: nat)
    requires Inv(k, s)
    ensures Inv(k, Unpark(s, id))
  {
    var i := Find(ParkedFiles(s.parked), id);
    if i < |s.parked| && s.parked[i].incident.action == RetryTransfer {
      FlightIds(s);
      UnparkMoves(s, id, i);
      Moved(k, s, Unpark(s, id));
    }
  }

  /** Rewriting one parked entry in place leaves the others, and every file where it is. */
  lemma RewrittenParked(s: Plan, t: Plan, i: nat)
    requires DistinctBy(InFlight(s), IdOf) && i < |s.parked| == |t.parked|
    requires t.parked == s.parked[i := t.parked[i]] && t.parked[i].file == s.parked[i].file
    ensures ParkedFiles(t.parked) == ParkedFiles(s.parked)
    ensures forall q :: q in t.parked ==> q == t.parked[i] || (q in s.parked && q.file.id != s.parked[i].file.id)
  {
    forall q | q in t.parked
      ensures q == t.parked[i] || (q in s.parked && q.file.id != s.parked[i].file.id)
    {
      var j :| 0 <= j < |t.parked| && t.parked[j] == q;
      ParkedOnce(s, i, j);
    }
  }

  /** Nor does a new code or attempt number make an entry unsound. */
  lemma RewrittenSound(s: Plan, t: Plan, i: nat)
    requires ParkedSound(s) && i < |s.parked| && i < |t.parked|
    requires forall q :: q in t.parked ==> q == t.parked[i] || q in s.parked
    requires var p, incident := s.parked[i], t.parked[i].incident;
      t.parked[i] == p.(incident := p.incident.(hresult := incident.hresult, attempts := incident.attempts))
    ensures ParkedSound(t)
  {
    assert s.parked[i] in s.parked;
  }

  lemma BeginRetryMoves(s: Plan, id: nat, action: RecoveryAction, i: nat)
    requires Bookkept(s) && DistinctBy(InFlight(s), IdOf)
    requires i == Find(ParkedFiles(s.parked), id) < |s.parked| && s.parked[i].incident.action == action
    ensures Moves(s, BeginRetry(s, id, action))
  {
    var t := BeginRetry(s, id, action);
    ParkedMember(s, i);
    RewrittenParked(s, t, i);
    RewrittenSound(s, t, i);
    assert s.parked[i] in s.parked && s.parked[i].file.id == id;
    hide DistinctBy, Find, ParkedFiles, ParkedSound;
    AttemptsAfter(s, t, id, s.parked[i].file);
    hide AttemptsCounted;
  }

  lemma BeginRetryKeeps(k: Keys, s: Plan, id: nat, action: RecoveryAction)
    requires Inv(k, s)
    ensures Inv(k, BeginRetry(s, id, action))
  {
    var i := Find(ParkedFiles(s.parked), id);
    if i < |s.parked| && s.parked[i].incident.action == action {
      FlightIds(s);
      BeginRetryMoves(s, id, action, i);
      Moved(k, s, BeginRetry(s, id, action));
    }
  }

  lemma RetryFailedMoves(s: Plan, id: nat, hresult: int)
    requires Bookkept(s) && DistinctBy(InFlight(s), IdOf) && HasId(ParkedFiles(s.parked), id)
    ensures Moves(s, RetryFailed(s, id, hresult))
  {
    var i, t := Find(ParkedFiles(s.parked), id), RetryFailed(s, id, hresult);
    RewrittenParked(s, t, i);
    RewrittenSound(s, t, i);
    assert s.parked[i] in s.parked;
    hide DistinctBy, Find, ParkedFiles, ParkedSound;
    assert AttemptsCounted(t);
    hide AttemptsCounted;
  }

  lemma RetryFailedKeeps(k: Keys, s: Plan, id: nat, hresult: int)
    requires Inv(k, s)
    ensures Inv(k, RetryFailed(s, id, hresult))
  {
    if HasId(ParkedFiles(s.parked), id) {
      FlightIds(s);
      RetryFailedMoves(s, id, hresult);
      Moved(k, s, RetryFailed(s, id, hresult));
    }
  }

  // ---- terminal outcomes ----

  lemma ResolveSettles(k: Keys, s: Plan, t: Plan, d: Done)
    requires TakenOut(s, t, d.file) && !d.scanned
    requires t == Resolve(k, s, d.file, d.outcome, d.hresult, d.preexisted)
                  .(pending := t.pending, active := t.active, parked := t.parked)
    ensures Settles(k, s, t, d)
  {
  }

  lemma ResolvePendingKeeps(k: Keys, s: Plan, i: nat, o: ItemOutcome, hresult: int, pre: bool)
    requires Inv(k, s) && i < |s.pending|
    ensures Inv(k, Resolve(k, s, s.pending[i], o, hresult, pre).(pending := RemoveAt(s.pending, i)))
  {
    var t, d := Resolve(k, s, s.pending[i], o, hresult, pre).(pending := RemoveAt(s.pending, i)),
                Done(s.pending[i], o, hresult, pre, false);
    assert TakenOut(s, t, d.file) by { PendingMember(s, i); }
    ResolveSettles(k, s, t, d);
    Retired(k, s, t, d);
  }

  lemma ResolveQueuedKeeps(k: Keys, s: Plan, id: nat, o: ItemOutcome, hresult: int, pre: bool)
    requires Inv(k, s)
    ensures Inv(k, ResolvePending(k, s, id, o, hresult, pre))
  {
    if HasId(s.pending, id) { ResolvePendingKeeps(k, s, Find(s.pending, id), o, hresult, pre); }
  }

  lemma ActiveTakenOut(s: Plan, t: Plan, i: nat)
    requires i < |s.active|
    requires t.pending == s.pending && t.active == RemoveAt(s.active, i) && t.parked == s.parked
    ensures TakenOut(s, t, s.active[i])
  {
    ActiveMember(s, i);
  }

  lemma ResolveActiveSettles(k: Keys, s: Plan, id: nat, o: ItemOutcome, hresult: int, pre: bool)
    requires HasId(s.active, id)
    ensures Settles(k, s, ResolveActive(k, s, id, o, hresult, pre),
                    Done(s.active[Find(s.active, id)], o, hresult, pre, false))
  {
    var i, t := Find(s.active, id), ResolveActive(k, s, id, o, hresult, pre);
    ActiveTakenOut(s, t, i);
    ResolveSettles(k, s, t, Done(s.active[i], o, hresult, pre, false));
  }

  lemma ResolveActiveKeeps(k: Keys, s: Plan, id: nat, o: ItemOutcome, hresult: int, pre: bool)
    requires Inv(k, s)
    ensures Inv(k, ResolveActive(k, s, id, o, hresult, pre))
  {
    if HasId(s.active, id) {
      ResolveActiveSettles(k, s, id, o, hresult, pre);
      Retired(k, s, ResolveActive(k, s, id, o, hresult, pre),
              Done(s.active[Find(s.active, id)], o, hresult, pre, false));
    }
  }

  lemma ParkedTakenOut(s: Plan, t: Plan, i: nat)
    requires i < |s.parked|
    requires t.pending == s.pending && t.active == s.active && t.parked == RemoveAt(s.parked, i)
    ensures TakenOut(s, t, s.parked[i].file)
  {
    ParkedMember(s, i);
    assert forall q :: q in t.parked ==> q in s.parked;
  }

  lemma ResolveParkedSettles(k: Keys, s: Plan, id: nat, o: ItemOutcome, hresult: int, pre: bool)
    requires HasId(ParkedFiles(s.parked), id)
    ensures Settles(k, s, ResolveParked(k, s, id, o, hresult, pre),
                    Done(s.parked[Find(ParkedFiles(s.parked), id)].file, o, hresult, pre, false))
  {
    var i, t := Find(ParkedFiles(s.parked), id), ResolveParked(k, s, id, o, hresult, pre);
    ParkedTakenOut(s, t, i);
    ResolveSettles(k, s, t, Done(s.parked[i].file, o, hresult, pre, false));
  }

  lemma ResolveParkedKeeps(k: Keys, s: Plan, id: nat, o: ItemOutcome, hresult: int, pre: bool)
    requires Inv(k, s)
    ensures Inv(k, ResolveParked(k, s, id, o, hresult, pre))
  {
    if HasId(ParkedFiles(s.parked), id) {
      ResolveParkedSettles(k, s, id, o, hresult, pre);
      Retired(k, s, ResolveParked(k, s, id, o, hresult, pre),
              Done(s.parked[Find(ParkedFiles(s.parked), id)].file, o, hresult, pre, false));
    }
  }

  lemma CompleteSettles(k: Keys, s: Plan, id: nat)
    requires HasId(s.active, id)
    ensures Settles(k, s, Complete(s, id), Done(s.active[Find(s.active, id)], Succeeded, 0, false, false))
  {
    ActiveTakenOut(s, Complete(s, id), Find(s.active, id));
  }

  lemma CompleteKeeps(k: Keys, s: Plan, id: nat)
    requires Inv(k, s)
    ensures Inv(k, Complete(s, id))
  {
    if HasId(s.active, id) {
      CompleteSettles(k, s, id);
      Retired(k, s, Complete(s, id), Done(s.active[Find(s.active, id)], Succeeded, 0, false, false));
    }
  }

  lemma {:induction false} FailUnderKeeps(k: Keys, s: Plan, directory: Path, hresult: int, i: nat)
    requires Inv(k, s) && i <= |s.pending|
    ensures Inv(k, FailUnder(k, s, directory, hresult, i))
    decreases |s.pending| - i
  {
    if i == |s.pending| {
    } else if Below(k, directory, s.pending[i]) {
      ResolvePendingKeeps(k, s, i, Failed, hresult, false);
      FailUnderKeeps(k, Resolve(k, s, s.pending[i], Failed, hresult, false).(pending := RemoveAt(s.pending, i)),
                     directory, hresult, i);
    } else {
      FailUnderKeeps(k, s, directory, hresult, i + 1);
    }
  }

  // ---- progress ----

  lemma ActiveApart(s: Plan, i: nat)
    requires IdsSound(s) && i < |s.active|
    ensures var ys := s.pending + RemoveAt(s.active, i) + ParkedFiles(s.parked);
      && multiset(ys) == multiset(InFlight(s)) - multiset{s.active[i]} && s.active[i] in InFlight(s)
      && forall x :: x in ys <==> x in InFlight(s) && x.id != s.active[i].id
  {
    ActiveMember(s, i);
    OthersDiffer(s, s.(active := RemoveAt(s.active, i)), s.active[i]);
  }

  /** Changing the mark of one item changes the sum of marks by the difference. */
  lemma MarkChange(s: Plan, i: nat, marks: map<nat, nat>)
    requires IdsSound(s) && i < |s.active|
    requires forall x :: x != s.active[i].id ==> Get(marks, x, 0) == Get(s.highWater, x, 0)
    ensures Sum(InFlight(s), MarkOf(marks)) + Get(s.highWater, s.active[i].id, 0)
            == Sum(InFlight(s), MarkOf(s.highWater)) + Get(marks, s.active[i].id, 0)
  {
    var f, ys := s.active[i], s.pending + RemoveAt(s.active, i) + ParkedFiles(s.parked);
    ActiveApart(s, i);
    hide IdsSound, InFlight;
    SumWithout(InFlight(s), ys, f, MarkOf(s.highWater));
    SumWithout(InFlight(s), ys, f, MarkOf(marks));
    MarksSame(ys, s.highWater, marks);
  }

  lemma RecordBytesBounded(s: Plan, id: nat, cumulative: nat)
    requires IdsSound(s) && MarksBounded(s) && HasId(s.active, id)
    ensures MarksBounded(RecordBytes(s, id, cumulative))
  {
    var i, t := Find(s.active, id), RecordBytes(s, id, cumulative);
    FlightIds(s);
    ActiveMember(s, i);
    assert InFlight(t) == InFlight(s);
    forall g | g in InFlight(s)
      ensures Get(t.highWater, g.id, 0) <= Weight(g.size)
    {
      DistinctMember(InFlight(s), IdOf, g, s.active[i]);
    }
  }

  lemma RecordBytesMarks(s: Plan, id: nat, cumulative: nat)
    requires IdsSound(s) && WeightsConserved(s) && MarksBounded(s) && HasId(s.active, id)
    ensures var t := RecordBytes(s, id, cumulative);
            && WeightsConserved(t) && MarksBounded(t)
            && t.counters.weight == s.counters.weight + Get(t.highWater, id, 0) - Get(s.highWater, id, 0)
            && Get(s.highWater, id, 0) <= Get(t.highWater, id, 0)
  {
    var i, t := Find(s.active, id), RecordBytes(s, id, cumulative);
    RecordBytesBounded(s, id, cumulative);
    assert InFlight(t) == InFlight(s);
    MarkChange(s, i, t.highWater);
    SumAtMost(InFlight(s), MarkOf(t.highWater), WeightOf);
  }

  lemma WrittenSnoc(writes: seq<Write>, w: Write)
    ensures forall x :: Written(writes + [w], x) == Written(writes, x) + if x == w.id then w.bytes else 0
    ensures Sum(writes + [w], BytesOf) == Sum(writes, BytesOf) + w.bytes
  {
    SumSnoc(writes, w, BytesOf);
    forall x
      ensures Written(writes + [w], x) == Written(writes, x) + if x == w.id then w.bytes else 0
    {
      SumSnoc(writes, w, BytesTo(x));
    }
  }

  lemma WrapAdd(a: nat, b: nat)
    ensures Wrap(Wrap(a) + b) == Wrap(a + b)
  {
    var m := MAX64 + 1;
    assert a == m * (a / m) + a % m;
    assert (a % m + b) % m == (a + b) % m;
  }

  lemma RecordBytesWrites(s: Plan, id: nat, cumulative: nat)
    requires WritesCover(s)
    ensures WritesCover(RecordBytes(s, id, cumulative))
  {
    var t := RecordBytes(s, id, cumulative);
    if HasId(s.active, id) {
      WrittenSnoc(s.writes, Last(t.writes));
      WrapAdd(Sum(s.writes, BytesOf), Last(t.writes).bytes);
      assert InFlight(t) == InFlight(s);
      hide Written, Wrap;
      assert t.counters.physical == Wrap(Sum(t.writes, BytesOf));
    }
  }

  /** Only marks, reports and the counters of progress differ. */
  ghost predicate SameItems(s: Plan, t: Plan) {
    && InFlight(t) == InFlight(s) && All(t) == All(s) && Holders(t) == Holders(s)
    && t.nextId == s.nextId && t.reserved == s.reserved && t.parked == s.parked && t.done == s.done
    && t.begun == s.begun && t.attemptCounts == s.attemptCounts && t.totalBytes == s.totalBytes && t.totalFiles == s.totalFiles
    && t.completedBytes == s.completedBytes && t.completedFiles == s.completedFiles
    && t.counters.succeeded == s.counters.succeeded && t.outcomes == s.outcomes && t.retained == s.retained
    && t.materialized == s.materialized && t.directories == s.directories
  }

  lemma RecordBytesItems(s: Plan, id: nat, cumulative: nat)
    ensures SameItems(s, RecordBytes(s, id, cumulative))
  {
    hide Wrap, Settled, Produced;
  }

  lemma SameItemsKeep(k: Keys, s: Plan, t: Plan)
    requires Inv(k, s) && SameItems(s, t)
    ensures IdsSound(t) && KeysExact(k, t) && BytesConserved(t) && OutcomesCounted(t) && AttemptsCounted(t)
    ensures CountsKnown(t) && ParkedSound(t) && t.materialized <= |t.directories|
  {
    hide InFlight, All, Holders, DistinctBy, KeysOf, Settled, Produced, Sum;
  }

  lemma RecordBytesKeeps(k: Keys, s: Plan, id: nat, cumulative: nat)
    requires Inv(k, s)
    ensures Inv(k, RecordBytes(s, id, cumulative))
  {
    if HasId(s.active, id) {
      RecordBytesWrites(s, id, cumulative);
      RecordBytesMarks(s, id, cumulative);
      RecordBytesItems(s, id, cumulative);
      SameItemsKeep(k, s, RecordBytes(s, id, cumulative));
      hide RecordBytes, IdsSound, KeysExact, BytesConserved, OutcomesCounted, AttemptsCounted, CountsKnown, ParkedSound;
      hide WeightsConserved, MarksBounded, WritesCover, SameItems;
    }
  }

  // ---- redirection ----

  lemma RedirectKeys(k: Keys, xs: seq<File>, i: nat, g: File)
    requires DistinctBy(xs, KeyOf(k)) && i < |xs|
    requires k.key(g.destination) !in KeysOf(k, xs)
    ensures DistinctBy(xs[i := g], KeyOf(k))
    ensures KeysOf(k, xs[i := g]) == KeysOf(k, xs) + {k.key(g.destination)} - {k.key(xs[i].destination)}
  {
    var ys, rest, key := xs[i := g], RemoveAt(xs, i), KeyOf(k);
    OneKeyLess(k, xs, rest, xs[i]);
    forall a, b | 0 <= a < b < |ys|
      ensures key(ys[a]) != key(ys[b])
    {
      if a != i && b != i {
        assert key(xs[a]) != key(xs[b]);
      } else {
        assert xs[if a == i then b else a] in xs;
      }
    }
    SwappedMembers(xs, i, g);
    assert k.key(xs[i].destination) in KeysOf(k, xs);
    hide DistinctBy, RemoveAt;
    assert KeysOf(k, ys) == KeysOf(k, rest) + {k.key(g.destination)};
  }

  lemma SwappedMembers(xs: seq<File>, i: nat, g: File)
    requires i < |xs|
    ensures forall x :: x in xs[i := g] <==> x in RemoveAt(xs, i) || x == g
  {
    var ys, rest := xs[i := g], RemoveAt(xs, i);
    forall x
      ensures x in ys <==> x in rest || x == g
    {
      if x in ys {
        var j :| 0 <= j < |ys| && ys[j] == x;
        if j != i { assert rest[if j < i then j else j - 1] == x; }
      }
      if x in rest {
        var j :| 0 <= j < |rest| && rest[j] == x;
        assert ys[if j < i then j else j + 1] == x;
      }
      assert ys[i] == g;
    }
  }

  lemma SumSwap(xs: seq<File>, i: nat, g: File, f: File -> nat)
    requires i < |xs| && f(g) == f(xs[i])
    ensures Sum(xs[i := g], f) == Sum(xs, f)
  {
    SumRemoveAt(xs, i, f);
    SumRemoveAt(xs[i := g], i, f);
    assert RemoveAt(xs[i := g], i) == RemoveAt(xs, i);
  }

  /** Each member of a swapped sequence has a counterpart that differs at most in destination. */
  lemma SwapMembers(xs: seq<File>, i: nat, g: File)
    requires i < |xs| && g == xs[i].(destination := g.destination)
    ensures forall x :: x in xs[i := g] ==> x in xs || x == g
    ensures IdSet(xs[i := g]) == IdSet(xs)
    ensures DistinctBy(xs, IdOf) ==> DistinctBy(xs[i := g], IdOf)
  {
    var ys := xs[i := g];
    forall x | x in xs
      ensures x.id in IdSet(ys)
    {
      var j :| 0 <= j < |xs| && xs[j] == x;
      assert ys[j].id == x.id && ys[j] in ys;
    }
    forall y | y in ys
      ensures y.id in IdSet(xs)
    {
      var j :| 0 <= j < |ys| && ys[j] == y;
      assert xs[j].id == y.id && xs[j] in xs;
    }
    assert forall j :: 0 <= j < |xs| ==> IdOf(ys[j]) == IdOf(xs[j]);
  }

  /** `t` is `s` with the destination of the item at active position `i` replaced. */
  ghost predicate Redirects(k: Keys, s: Plan, t: Plan, i: nat, to: Path) {
    && i < |s.active| && k.key(to) !in s.reserved
    && t == s.(reserved := s.reserved + {k.key(to)} - {k.key(s.active[i].destination)},
               active := s.active[i := s.active[i].(destination := to)])
  }

  lemma RedirectLists(k: Keys, s: Plan, t: Plan, i: nat, to: Path)
    requires Redirects(k, s, t, i, to)
    ensures var g, n := s.active[i].(destination := to), |s.pending| + i;
      && n < |InFlight(s)| && InFlight(s)[n] == s.active[i]
      && InFlight(t) == InFlight(s)[n := g]
      && All(t) == All(s)[n := g] && Holders(t) == Holders(s)[n := g]
  {
  }

  lemma RedirectSums(k: Keys, s: Plan, t: Plan, i: nat, to: Path)
    requires Redirects(k, s, t, i, to) && WeightsConserved(s) && BytesConserved(s)
    ensures WeightsConserved(t) && BytesConserved(t)
  {
    var g, n := s.active[i].(destination := to), |s.pending| + i;
    RedirectLists(k, s, t, i, to);
    SumSwap(InFlight(s), n, g, WeightOf);
    SumSwap(InFlight(s), n, g, SizeOf);
    SumSwap(InFlight(s), n, g, MarkOf(s.highWater));
  }

  /** An unresolved item of the redirected plan was one before, or is the redirected one. */
  lemma RedirectMembers(k: Keys, s: Plan, t: Plan, i: nat, to: Path)
    requires Redirects(k, s, t, i, to)
    ensures s.active[i] in InFlight(s) && IdSet(InFlight(t)) == IdSet(InFlight(s))
    ensures forall f :: f in InFlight(t) ==> exists g :: g in InFlight(s) && f.id == g.id && f.size == g.size
  {
    var g := s.active[i].(destination := to);
    RedirectLists(k, s, t, i, to);
    ActiveMember(s, i);
    SwapMembers(InFlight(s), |s.pending| + i, g);
  }

  lemma RedirectRest(k: Keys, s: Plan, t: Plan, i: nat, to: Path)
    requires Redirects(k, s, t, i, to) && Bookkept(s) && MarksBounded(s) && WritesCover(s)
    ensures Bookkept(t) && MarksBounded(t) && WritesCover(t)
  {
    RedirectMembers(k, s, t, i, to);
    hide InFlight, IdSet;
  }

  lemma RedirectIds(k: Keys, s: Plan, t: Plan, i: nat, to: Path)
    requires Redirects(k, s, t, i, to) && IdsSound(s)
    ensures IdsSound(t)
  {
    RedirectLists(k, s, t, i, to);
    assert All(s)[|s.pending| + i] == s.active[i];
    SwapMembers(All(s), |s.pending| + i, s.active[i].(destination := to));
  }

  lemma RedirectedKeys(k: Keys, s: Plan, t: Plan, i: nat, to: Path)
    requires Redirects(k, s, t, i, to) && KeysExact(k, s)
    ensures KeysExact(k, t)
  {
    RedirectLists(k, s, t, i, to);
    assert Holders(s)[|s.pending| + i] == s.active[i];
    RedirectKeys(k, Holders(s), |s.pending| + i, s.active[i].(destination := to));
  }

  lemma Redirected(k: Keys, s: Plan, t: Plan, i: nat, to: Path)
    requires Inv(k, s) && Redirects(k, s, t, i, to)
    ensures Inv(k, t)
  {
    assert IdsSound(t) by { RedirectIds(k, s, t, i, to); }
    assert KeysExact(k, t) by { RedirectedKeys(k, s, t, i, to); }
    assert WeightsConserved(t) && BytesConserved(t) by { RedirectSums(k, s, t, i, to); }
    assert Bookkept(t) && MarksBounded(t) && WritesCover(t) by { RedirectRest(k, s, t, i, to); }
  }

  lemma RedirectKeeps(k: Keys, s: Plan, id: nat, w: Surroundings)
    requires Inv(k, s)
    ensures Inv(k, Redirect(k, s, id, w).0)
  {
    var (t, to) := Redirect(k, s, id, w);
    if to.Some? { Redirected(k, s, t, Find(s.active, id), to.value); }
  }

  lemma MarkMaterializedKeeps(k: Keys, s: Plan, through: nat)
    requires Inv(k, s)
    ensures Inv(k, MarkMaterialized(s, through))
  {
    Shuffled(k, s, MarkMaterialized(s, through));
  }
}
