/** The window's two decisions about parked items: retry them all, or accept the failures. */
module ParkedDecisions {
  import opened Items
  import opened Sequences
  import opened LivePlan
  import opened PlanInvariant
  import opened PlanOperations
  import opened LiveCopyPlans

  predicate Transfer(p: ParkedFile) { p.incident.action == RetryTransfer }

  /** The parked items whose copy is complete, in order. */
  function Stays(parked: seq<ParkedFile>): seq<ParkedFile> {
    if parked == [] then []
    else Stays(Front(parked)) + if Transfer(Last(parked)) then [] else [Last(parked)]
  }

  /** The parked transfers, last first: each goes to the front of the queue in turn. */
  function Returns(parked: seq<ParkedFile>): seq<File> {
    if parked == [] then []
    else (if Transfer(Last(parked)) then [Last(parked).file] else []) + Returns(Front(parked))
  }

  /** What accepting the failure of a parked item records. */
  function Accepted(p: ParkedFile): Done {
    Done(p.file, if Transfer(p) then Failed else CopiedSourceRetained, p.incident.hresult, p.incident.preexisted, false)
  }

  function AllAccepted(parked: seq<ParkedFile>): seq<Done> {
    seq(|parked|, i requires 0 <= i < |parked| => Accepted(parked[i]))
  }

  /** The parked item at an index is the one its id finds. */
  lemma FoundParked(k: Keys, s: Plan, n: nat)
    requires Inv(k, s) && n < |s.parked|
    ensures s.parked[n].incident.fileId == s.parked[n].file.id
    ensures Find(ParkedFiles(s.parked), s.parked[n].file.id) == n
  {
    FlightIds(s);
    var j := Find(ParkedFiles(s.parked), s.parked[n].file.id);
    assert ParkedFiles(s.parked)[n] == s.parked[n].file;
    ParkedOnce(s, j, n);
  }

  /** Queue every parked transfer again. The failure exit is never taken, finished copies
      stay parked, and nothing else about the plan's items changes. */
  method ResumeParkedFailures(plan: LiveCopyPlan) returns (ok: bool)
    requires plan.Valid()
    modifies plan
    ensures plan.Valid() && ok
    ensures plan.parked == Stays(old(plan.parked)) && plan.pending == Returns(old(plan.parked)) + old(plan.pending)
    ensures plan.active == old(plan.active) && plan.reserved == old(plan.reserved) && plan.ledger == old(plan.ledger)
  {
    hide Inv, Stays, Returns, Unpark;
    ghost var queue := plan.pending;
    var was := plan.parked;
    NoneYet(was, queue);
    for i := 0 to |was|
      invariant plan.Valid()
      invariant plan.parked == Stays(was[..i]) + was[i..] && plan.pending == Returns(was[..i]) + queue
      invariant plan.active == old(plan.active) && plan.reserved == old(plan.reserved) && plan.ledger == old(plan.ledger)
    {
      var incident := was[i].incident;
      OneMore(was, i, queue);
      FoundParked(plan.keys, plan.Value(), |Stays(was[..i])|);
      if incident.action == RetryTransfer {
        ghost var before := plan.Value();
        var unparked := plan.UnparkFile(incident.fileId);
        if !unparked { return false; }
        UnparkedOne(before, incident.fileId);
      }
    }
    assert was[..|was|] == was && was[|was|..] == [];
    ok := true;
  }

  lemma NoneYet(was: seq<ParkedFile>, queue: seq<File>)
    ensures Stays(was[..0]) + was[0..] == was && Returns(was[..0]) + queue == queue
  {
  }

  /** What the lists are after looking at one more parked item. */
  lemma OneMore(was: seq<ParkedFile>, i: nat, queue: seq<File>)
    requires i < |was|
    ensures var n, parked := |Stays(was[..i])|, Stays(was[..i]) + was[i..];
      && n < |parked| && parked[n] == was[i]
      && Stays(was[..i + 1]) + was[i + 1..] == (if Transfer(was[i]) then RemoveAt(parked, n) else parked)
    ensures Returns(was[..i + 1]) + queue
            == (if Transfer(was[i]) then [was[i].file] + (Returns(was[..i]) + queue) else Returns(was[..i]) + queue)
  {
    assert Front(was[..i + 1]) == was[..i] && Last(was[..i + 1]) == was[i];
    assert was[i..] == [was[i]] + was[i + 1..];
  }

  lemma UnparkedOne(s: Plan, id: nat)
    requires HasId(ParkedFiles(s.parked), id) && Transfer(s.parked[Find(ParkedFiles(s.parked), id)])
    ensures var i, t := Find(ParkedFiles(s.parked), id), Unpark(s, id);
      && t.parked == RemoveAt(s.parked, i) && t.pending == [s.parked[i].file] + s.pending && t.active == s.active
      && t.reserved == s.reserved && t.counters == s.counters && t.outcomes == s.outcomes && t.retained == s.retained
  {
  }

  /** Accept the failure of the first parked item. */
  method ResolveFirst(plan: LiveCopyPlan, incident: Incident) returns (ok: bool)
    requires plan.Valid() && plan.parked != [] && plan.parked[0].incident == incident
    modifies plan
    ensures plan.Valid() && ok && plan.parked == RemoveAt(old(plan.parked), 0)
    ensures plan.pending == old(plan.pending) && plan.active == old(plan.active)
    ensures plan.history.done == old(plan.history.done) + [Accepted(old(plan.parked[0]))]
  {
    hide Inv, Resolve;
    FoundParked(plan.keys, plan.Value(), 0);
    var outcome := if incident.action == RetrySourceRemoval then CopiedSourceRetained else Failed;
    SettledOne(plan.keys, plan.Value(), incident.fileId, outcome, incident.hresult, incident.preexisted);
    ok := plan.ResolveParkedFile(incident.fileId, outcome, incident.hresult, incident.preexisted);
  }

  /** Accept every parked failure: a finished copy keeps its source, a transfer has failed.
      Says whether the session must run on; if not, all work is settled and shows as such. */
  method ResolveParkedFailures(plan: LiveCopyPlan, planning: bool) returns (ok: bool, restart: bool)
    requires plan.Valid()
    modifies plan
    ensures plan.Valid() && ok && plan.parked == [] && plan.pending == old(plan.pending) && plan.active == old(plan.active)
    ensures plan.history.done == old(plan.history.done) + AllAccepted(old(plan.parked))
    ensures restart <==> planning || plan.pending != [] || plan.active != [] || plan.materialized < |plan.directories|
    ensures !restart ==> plan.ledger.counters.weight == plan.ledger.counters.total
  {
    hide Inv, Resolve, AllAccepted;
    var was := plan.parked;
    ghost var settled := plan.history.done;
    NoneAccepted(was, settled);
    for i := 0 to |was|
      invariant plan.Valid() && plan.parked == was[i..]
      invariant plan.pending == old(plan.pending) && plan.active == old(plan.active)
      invariant plan.history.done == settled + AllAccepted(was[..i])
    {
      OneAccepted(was, i, settled);
      ok := ResolveFirst(plan, was[i].incident);
      if !ok { return false, false; }
    }
    restart := planning || plan.pending != [] || plan.active != [] || plan.materialized < |plan.directories|;
    ok := true;
    if !restart { ResolvedAtMostTotal(plan.keys, plan.Value()); }
  }

  lemma NoneAccepted(was: seq<ParkedFile>, settled: seq<Done>)
    ensures was[0..] == was && was[|was|..] == [] && was[..|was|] == was && forall i :: 0 <= i < |was| ==> was[i..] != [] && was[i..][0] == was[i]
    ensures settled + AllAccepted(was[..0]) == settled
  {
  }

  lemma OneAccepted(was: seq<ParkedFile>, i: nat, settled: seq<Done>)
    requires i < |was|
    ensures RemoveAt(was[i..], 0) == was[i + 1..]
    ensures settled + AllAccepted(was[..i + 1]) == settled + AllAccepted(was[..i]) + [Accepted(was[i])]
  {
    assert Front(was[..i + 1]) == was[..i] && Last(was[..i + 1]) == was[i];
  }

  lemma SettledOne(k: Keys, s: Plan, id: nat, o: ItemOutcome, h: int, pre: bool)
    requires HasId(ParkedFiles(s.parked), id)
    ensures var i, t := Find(ParkedFiles(s.parked), id), ResolveParked(k, s, id, o, h, pre);
      && t.parked == RemoveAt(s.parked, i) && t.pending == s.pending && t.active == s.active
      && t.done == s.done + [Done(s.parked[i].file, o, h, pre, false)]
  {
    hide Wrap;
  }
}
