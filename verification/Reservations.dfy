/** Reservations at a session's append gate: the window reserves a place for each pasted
    job, the planner calls back once for each, and the callback releases the place. */
module Reservations {
  import opened Items
  import opened Sequences
  import opened LivePlan

  /** Appends are committed only while the gate accepts; `planning` counts the
      reservations not yet released. */
  datatype Gate = Gate(accepting: bool, planning: nat, locked: bool)

  /** The request the planner works on; one it has decided to answer is called back whatever
      happens next. */
  datatype Work =
    | NoWork
    | Planning(id: nat, stop: bool)
    | Planned(id: nat, plan: Option<CopyPlan>)
    | Answering(id: nat, plan: Option<CopyPlan>)

  /** What the window's thread is in the middle of. */
  datatype Window =
    | AtRest
    | Reserved(id: nat)
    | Publishing(rest: seq<nat>)
    | Dropping
    | Flushing
    | Releasing(batch: seq<nat>)
    | Shutting
    | Halting
    | Cancelling
    | Retiring

  /** Where each reservation is: with the window, held back until the plan is published,
      queued for the planner, or being planned. The logs record callbacks made, requests
      destroyed with the planner, and reservations dropped when the session was cancelled
      or over. */
  datatype Desk = Desk(
    window: Window, published: bool, deferred: seq<nat>, queue: seq<nat>, work: Work, retired: bool,
    called: seq<nat>, destroyed: seq<nat>, dropped: seq<nat>, next: nat)

  datatype Office = Office(gate: Gate, desk: Desk)

  datatype Errand =
    | Paste
    | Place
    | Publish
    | BeginCancel
    | Carry
    | Finish
    | TakeRequest
    | Build(plan: Option<CopyPlan>)
    | Decide
    | Answer
    | BeginRetire
    | Retire
    | Latch(accepting: bool, locked: bool)

  /** The window is there and not in the middle of something. */
  predicate Attended(d: Desk) { d.window.AtRest? && !d.retired }

  function Released(g: Gate): Gate { g.(planning := Monus(g.planning, 1)) }

  /** Queue the reserved job for planning, or hold it back until there is a plan. */
  function Placed(d: Desk): Desk {
    match d.window
    case Reserved(id) =>
      if d.published then d.(window := AtRest, queue := d.queue + [id])
      else d.(window := AtRest, deferred := d.deferred + [id])
    case Publishing(rest) =>
      if rest == [] then d.(window := AtRest)
      else d.(window := Publishing(rest[1..]), queue := d.queue + [rest[0]])
    case _ => d
  }

  function Stopping(w: Work): Work { if w.Planning? then w.(stop := true) else w }

  /** Carry a cancellation on: drop what was held back, take the planner's queue and stop
      its work, release each reservation taken, close the gate. */
  function Carried(o: Office): Office {
    var g, d := o.gate, o.desk;
    match d.window
    case Dropping => Office(g, d.(window := Flushing, dropped := d.dropped + d.deferred, deferred := []))
    case Flushing => Office(g, d.(window := Releasing(d.queue), queue := [], work := Stopping(d.work)))
    case Releasing(batch) =>
      if batch == [] then Office(g, d.(window := Shutting))
      else if g.locked then o
      else Office(Released(g), d.(window := Releasing(batch[1..]), called := d.called + [batch[0]]))
    case Shutting => if g.locked then o else Office(g.(accepting := false), d.(window := Halting))
    case Halting => Office(g, d.(window := Cancelling))
    case Cancelling => Office(g, d.(window := AtRest))
    case _ => o
  }

  function Run(o: Office, e: Errand): Office {
    var g, d := o.gate, o.desk;
    match e
    case Paste =>
      if !Attended(d) || g.locked || !g.accepting then o
      else Office(g.(planning := g.planning + 1), d.(window := Reserved(d.next), next := d.next + 1))
    case Place => Office(g, Placed(d))
    case Publish =>
      if Attended(d) && !d.published then
        Office(g, d.(published := true, window := Publishing(d.deferred), deferred := []))
      else o
    case BeginCancel => if Attended(d) then Office(g, d.(window := Dropping)) else o
    case Carry => Carried(o)
    case Finish =>
      if Attended(d) then Office(g, d.(dropped := d.dropped + d.deferred, deferred := [])) else o
    case TakeRequest =>
      if d.work.NoWork? && d.queue != [] && !d.retired then
        Office(g, d.(queue := d.queue[1..], work := Planning(d.queue[0], false)))
      else o
    case Build(plan) =>
      if d.work.Planning? then Office(g, d.(work := Planned(d.work.id, if d.work.stop then None else plan)))
      else o
    case Decide =>
      if !d.work.Planned? then o
      else if d.retired then Office(g, d.(destroyed := d.destroyed + [d.work.id], work := NoWork))
      else Office(g, d.(work := Answering(d.work.id, d.work.plan)))
    case Answer =>
      if !d.work.Answering? || g.locked then o
      else Office(Released(g), d.(called := d.called + [d.work.id], work := NoWork))
    case BeginRetire =>
      if !Attended(d) then o
      else Office(g, d.(window := Retiring, destroyed := d.destroyed + d.queue, queue := [], work := Stopping(d.work)))
    case Retire => if d.window.Retiring? then Office(g, d.(window := AtRest, retired := true)) else o
    case Latch(accepting, locked) => Office(g.(accepting := accepting, locked := locked), d)
  }

  function After(o: Office, es: seq<Errand>): Office
    decreases |es|
  {
    if es == [] then o else After(Run(o, es[0]), es[1..])
  }

  const OPEN := Office(Gate(true, 0, false), Desk(AtRest, false, [], [], NoWork, false, [], [], [], 0))

  // ---- every reservation in exactly one place ----

  function Count(xs: seq<nat>, id: nat): nat {
    if xs == [] then 0 else Count(xs[..|xs| - 1], id) + One(xs[|xs| - 1], id)
  }

  function One(x: nat, id: nat): nat { if x == id then 1 else 0 }

  function InWindow(w: Window, id: nat): nat {
    match w
    case Reserved(x) => One(x, id)
    case Publishing(rest) => Count(rest, id)
    case Releasing(batch) => Count(batch, id)
    case _ => 0
  }

  function AtWork(w: Work, id: nat): nat { if w.NoWork? then 0 else One(w.id, id) }

  /** How often a reservation is among those whose release is still to come. */
  function Outstanding(d: Desk, id: nat): nat {
    InWindow(d.window, id) + Count(d.deferred, id) + Count(d.queue, id) + AtWork(d.work, id)
  }

  function WindowSize(w: Window): nat {
    match w
    case Reserved(_) => 1
    case Publishing(rest) => |rest|
    case Releasing(batch) => |batch|
    case _ => 0
  }

  function Pending(d: Desk): nat {
    WindowSize(d.window) + |d.deferred| + |d.queue| + if d.work.NoWork? then 0 else 1
  }

  /** How often it is among those nobody will release any more. */
  function Forgone(d: Desk, id: nat): nat { Count(d.dropped, id) + Count(d.destroyed, id) }

  function Lost(d: Desk): nat { |d.dropped| + |d.destroyed| }

  function Called(d: Desk, id: nat): nat { Count(d.called, id) }

  /** Every reservation made is in exactly one place, and the gate counts exactly those that
      were not released. */
  ghost predicate Reckoned(o: Office) {
    && (forall id: nat :: Tally(o.desk, id) == if id < o.desk.next then 1 else 0)
    && o.gate.planning == Pending(o.desk) + Lost(o.desk)
  }

  function Tally(d: Desk, id: nat): nat { Outstanding(d, id) + Forgone(d, id) + Called(d, id) }

  lemma EmptyCount(id: nat)
    ensures Count([], id) == 0
  {
  }

  lemma Added(xs: seq<nat>, x: nat, id: nat)
    ensures Count(xs + [x], id) == Count(xs, id) + One(x, id)
  {
    assert (xs + [x])[..|xs|] == xs;
  }

  lemma {:induction false} Joined(xs: seq<nat>, ys: seq<nat>, id: nat)
    ensures Count(xs + ys, id) == Count(xs, id) + Count(ys, id)
  {
    if ys == [] {
      assert xs + ys == xs;
    } else {
      var most := ys[..|ys| - 1];
      Joined(xs, most, id);
      assert (xs + ys)[..|xs + ys| - 1] == xs + most;
    }
  }

  lemma FirstAndRest(xs: seq<nat>, id: nat)
    requires xs != []
    ensures Count(xs, id) == One(xs[0], id) + Count(xs[1..], id)
  {
    Joined([xs[0]], xs[1..], id);
    Added([], xs[0], id);
    assert [] + [xs[0]] == [xs[0]] && xs == [xs[0]] + xs[1..];
  }

  lemma PlaceShifts(d: Desk, id: nat)
    ensures Tally(Placed(d), id) == Tally(d, id) && Pending(Placed(d)) == Pending(d) && Lost(Placed(d)) == Lost(d)
    ensures Placed(d).next == d.next
  {
    hide Count, One;
    EmptyCount(id);
    if d.window.Publishing? {
      if d.window.rest != [] {
        FirstAndRest(d.window.rest, id);
        Added(d.queue, d.window.rest[0], id);
      }
    } else if d.window.Reserved? {
      Added(d.queue, d.window.id, id);
      Added(d.deferred, d.window.id, id);
    }
  }

  lemma CarryShifts(o: Office, id: nat)
    ensures Tally(Carried(o).desk, id) == Tally(o.desk, id) && Carried(o).desk.next == o.desk.next
    ensures o.gate.planning == Pending(o.desk) + Lost(o.desk) ==>
      Carried(o).gate.planning == Pending(Carried(o).desk) + Lost(Carried(o).desk)
  {
    hide Count, One;
    EmptyCount(id);
    match o.desk.window {
      case Dropping => Joined(o.desk.dropped, o.desk.deferred, id);
      case Flushing => FlushShifts(o, id);
      case Releasing(batch) => ReleaseShifts(o, id);
      case _ =>
    }
  }

  lemma FlushShifts(o: Office, id: nat)
    requires o.desk.window.Flushing?
    ensures Tally(Carried(o).desk, id) == Tally(o.desk, id) && Carried(o).desk.next == o.desk.next
    ensures Pending(Carried(o).desk) == Pending(o.desk) && Lost(Carried(o).desk) == Lost(o.desk)
    ensures Carried(o).gate == o.gate
  {
    hide Count, One;
    EmptyCount(id);
  }

  lemma ReleaseShifts(o: Office, id: nat)
    requires o.desk.window.Releasing?
    ensures Tally(Carried(o).desk, id) == Tally(o.desk, id) && Carried(o).desk.next == o.desk.next
    ensures o.gate.planning == Pending(o.desk) + Lost(o.desk) ==>
      Carried(o).gate.planning == Pending(Carried(o).desk) + Lost(Carried(o).desk)
  {
    hide Count, One;
    var batch := o.desk.window.batch;
    EmptyCount(id);
    if batch != [] {
      FirstAndRest(batch, id);
      Added(o.desk.called, batch[0], id);
    }
  }

  lemma AnswerShifts(o: Office, id: nat)
    ensures var t := Run(o, Answer);
      && Tally(t.desk, id) == Tally(o.desk, id) && t.desk.next == o.desk.next
      && (o.gate.planning == Pending(o.desk) + Lost(o.desk) ==> t.gate.planning == Pending(t.desk) + Lost(t.desk))
  {
    if o.desk.work.Answering? { Added(o.desk.called, o.desk.work.id, id); }
  }

  /** The planner's own moves. */
  lemma PlannerShifts(o: Office, e: Errand, id: nat)
    requires e.TakeRequest? || e.Build? || e.Decide?
    ensures var t := Run(o, e);
      && Tally(t.desk, id) == Tally(o.desk, id) && t.desk.next == o.desk.next
      && t.gate.planning == o.gate.planning && Pending(t.desk) + Lost(t.desk) == Pending(o.desk) + Lost(o.desk)
  {
    hide Count, One, InWindow, WindowSize;
    var d := o.desk;
    if e.Decide? {
      if d.work.Planned? { Added(d.destroyed, d.work.id, id); }
    } else if e.TakeRequest? {
      if d.queue != [] { FirstAndRest(d.queue, id); }
    }
  }

  /** What the window does in one go, and the gate's flags. */
  lemma WindowShifts(o: Office, e: Errand, id: nat)
    requires e.Publish? || e.BeginCancel? || e.Finish? || e.BeginRetire? || e.Retire? || e.Latch?
    ensures var t := Run(o, e);
      && Tally(t.desk, id) == Tally(o.desk, id) && t.desk.next == o.desk.next
      && t.gate.planning == o.gate.planning && Pending(t.desk) + Lost(t.desk) == Pending(o.desk) + Lost(o.desk)
  {
    hide Count, One;
    var d := o.desk;
    EmptyCount(id);
    if e.Finish? {
      Joined(d.dropped, d.deferred, id);
    } else if e.BeginRetire? {
      Joined(d.destroyed, d.queue, id);
    }
  }

  lemma PasteReckons(o: Office)
    requires Reckoned(o)
    ensures Reckoned(Run(o, Paste))
  {
    var t := Run(o, Paste);
    forall id: nat
      ensures Tally(t.desk, id) == if id < t.desk.next then 1 else 0
    {
      assert Tally(o.desk, id) == if id < o.desk.next then 1 else 0;
    }
  }

  lemma RunReckons(o: Office, e: Errand)
    requires Reckoned(o)
    ensures Reckoned(Run(o, e))
  {
    if e.Paste? {
      PasteReckons(o);
    } else {
      hide Tally, Run, Pending, Lost;
      var t := Run(o, e);
      EveryShift(o, e, 0);
      forall id: nat
        ensures Tally(t.desk, id) == if id < t.desk.next then 1 else 0
      {
        EveryShift(o, e, id);
        assert Tally(o.desk, id) == if id < o.desk.next then 1 else 0;
      }
    }
  }

  /** Nothing but a paste makes a reservation; everything else only moves one on. */
  lemma EveryShift(o: Office, e: Errand, id: nat)
    requires !e.Paste? && o.gate.planning == Pending(o.desk) + Lost(o.desk)
    ensures var t := Run(o, e);
      && Tally(t.desk, id) == Tally(o.desk, id) && t.desk.next == o.desk.next
      && t.gate.planning == Pending(t.desk) + Lost(t.desk)
  {
    hide Tally, Pending, Lost;
    if e.Place? {
      PlaceShifts(o.desk, id);
    } else if e.Carry? {
      CarryShifts(o, id);
    } else if e.Answer? {
      AnswerShifts(o, id);
    } else {
      hide Run;
      if e.TakeRequest? || e.Build? || e.Decide? { PlannerShifts(o, e, id); } else { WindowShifts(o, e, id); }
    }
  }

  /** In any race of the window, the planner and the session thread. */
  lemma {:induction false} ReckonedOverRuns(o: Office, es: seq<Errand>)
    requires Reckoned(o)
    ensures Reckoned(After(o, es))
    decreases |es|
  {
    if es != [] {
      hide Reckoned, Run;
      RunReckons(o, es[0]);
      ReckonedOverRuns(Run(o, es[0]), es[1..]);
    }
  }

  /** No request is called back twice, and none that was called back is still outstanding,
      dropped or destroyed. */
  lemma CalledOnce(o: Office, id: nat)
    requires Reckoned(o)
    ensures Called(o.desk, id) <= 1
    ensures Called(o.desk, id) == 1 ==> Outstanding(o.desk, id) == 0 && Forgone(o.desk, id) == 0
  {
    assert Tally(o.desk, id) == if id < o.desk.next then 1 else 0;
  }

  /** Once nothing is outstanding, every request has had its one callback or was forgone,
      and the gate counts just what was forgone. */
  lemma AllCalledBack(o: Office, id: nat)
    requires Reckoned(o) && Pending(o.desk) == 0 && id < o.desk.next
    ensures Called(o.desk, id) + Forgone(o.desk, id) == 1
    ensures o.gate.planning == Lost(o.desk)
  {
    assert Tally(o.desk, id) == 1;
  }

  /** The guard on the count never hides an underflow: whoever is about to release a
      reservation finds it counted. */
  lemma ReleaseIsCounted(o: Office)
    requires Reckoned(o) && (o.desk.work.Answering? || (o.desk.window.Releasing? && o.desk.window.batch != []))
    ensures o.gate.planning >= 1
  {
    hide Tally;
  }

  /** Nothing is forgone before a cancellation has begun, the session is over or the planner
      is destroyed: until then the gate counts exactly the outstanding reservations. */
  lemma {:induction false} CountIsOutstanding(o: Office, es: seq<Errand>)
    requires Reckoned(o) && Lost(o.desk) == 0 && !o.desk.retired && !o.desk.window.Dropping? && !o.desk.window.Retiring?
    requires forall e :: e in es ==> !e.BeginCancel? && !e.Finish? && !e.BeginRetire?
    ensures var t := After(o, es); Lost(t.desk) == 0 && t.gate.planning == Pending(t.desk)
    decreases |es|
  {
    hide Tally;
    if es != [] {
      var t := Run(o, es[0]);
      RunReckons(o, es[0]);
      NothingForgone(o, es[0]);
      hide Reckoned, Run, Lost, Pending;
      CountIsOutstanding(t, es[1..]);
    }
  }

  lemma NothingForgone(o: Office, e: Errand)
    requires !e.BeginCancel? && !e.Finish? && !e.BeginRetire?
    requires !o.desk.retired && !o.desk.window.Dropping? && !o.desk.window.Retiring?
    ensures var t := Run(o, e);
      Lost(t.desk) == Lost(o.desk) && !t.desk.retired && !t.desk.window.Dropping? && !t.desk.window.Retiring?
  {
  }

  /** Closing the gate is final: only the session thread could reopen it, and it never does. */
  lemma GateStaysShut(o: Office, e: Errand)
    requires !o.gate.accepting && (e.Latch? ==> !e.accepting)
    ensures !Run(o, e).gate.accepting && Run(o, e).gate.planning <= o.gate.planning
  {
  }
}
