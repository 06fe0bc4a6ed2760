/** The control word a session shares with its workers: a directive that only ever moves
    towards Cancel once it has left Run and Pause, and a set of files to skip. */
module ExecutionControls {
  datatype Directive = Run | Pause | Stop | Cancel

  datatype Control = Control(directive: Directive, skips: set<nat>)

  datatype Request = AskPause | AskResume | AskStop | AskCancel | AskSkip(id: nat)

  const INITIAL := Control(Run, {})

  function Requested(c: Control, r: Request): Control {
    match r
    case AskPause => if c.directive == Run then c.(directive := Pause) else c
    case AskResume => if c.directive == Pause then c.(directive := Run) else c
    case AskStop => if c.directive == Cancel then c else c.(directive := Stop)
    case AskCancel => Control(Cancel, {})
    case AskSkip(id) =>
      if id != 0 && (c.directive == Run || c.directive == Pause) then c.(skips := c.skips + {id}) else c
  }

  function Consumed(c: Control, id: nat): Control { c.(skips := c.skips - {id}) }

  /** Workers are to wind down. */
  predicate Ending(c: Control) { c.directive == Stop || c.directive == Cancel }

  /** What happens to a control word: requests, and lookups of a file's skip. */
  datatype Use = Ask(request: Request) | Consume(id: nat)

  function Used(c: Control, uses: seq<Use>): Control
    decreases |uses|
  {
    if uses == [] then c
    else Used(match uses[0] case Ask(r) => Requested(c, r) case Consume(id) => Consumed(c, id), uses[1..])
  }

  /** Winding down is final: no sequence of requests and lookups brings a session back to Run
      or Pause, weakens Cancel to Stop, or takes in a further skip. */
  lemma {:induction false} EndingIsFinal(c: Control, uses: seq<Use>)
    requires Ending(c)
    ensures var t := Used(c, uses); Ending(t) && t.skips <= c.skips && (c.directive == Cancel ==> t.directive == Cancel)
    decreases |uses|
  {
    if uses != [] {
      EndingIsFinal(match uses[0] case Ask(r) => Requested(c, r) case Consume(id) => Consumed(c, id), uses[1..]);
    }
  }

  function Asked(uses: seq<Use>, id: nat): nat {
    if uses == [] then 0 else (if uses[0] == Ask(AskSkip(id)) then 1 else 0) + Asked(uses[1..], id)
  }

  /** How often a lookup of the file's skip answers yes. */
  function Granted(c: Control, uses: seq<Use>, id: nat): nat
    decreases |uses|
  {
    if uses == [] then 0
    else match uses[0]
      case Ask(r) => Granted(Requested(c, r), uses[1..], id)
      case Consume(x) => (if x == id && id in c.skips then 1 else 0) + Granted(Consumed(c, x), uses[1..], id)
  }

  /** Every granted skip answers a request of its own: none is granted twice. */
  lemma {:induction false} SkipsGrantedOnce(c: Control, uses: seq<Use>, id: nat)
    ensures Granted(c, uses, id) + (if id in Used(c, uses).skips then 1 else 0)
            <= Asked(uses, id) + (if id in c.skips then 1 else 0)
    decreases |uses|
  {
    if uses != [] {
      match uses[0] {
        case Ask(r) => SkipsGrantedOnce(Requested(c, r), uses[1..], id);
        case Consume(x) => SkipsGrantedOnce(Consumed(c, x), uses[1..], id);
      }
    }
  }

  class ExecutionControl {
    var directive: Directive
    var skips: set<nat>
    // Read without the lock, so that the common case of no skip at all stays cheap.
    var hasPendingSkips: bool

    ghost predicate Valid()
      reads this
    {
      hasPendingSkips <==> skips != {}
    }

    ghost function Value(): Control
      reads this
    {
      Control(directive, skips)
    }

    constructor ()
      ensures Valid() && Value() == INITIAL
    {
      directive, skips, hasPendingSkips := Run, {}, false;
    }

    method RequestPause()
      requires Valid()
      modifies this
      ensures Valid() && Value() == Requested(old(Value()), AskPause)
    {
      if directive == Run { directive := Pause; }
    }

    method Resume()
      requires Valid()
      modifies this
      ensures Valid() && Value() == Requested(old(Value()), AskResume)
    {
      if directive != Pause { return; }
      directive := Run;
    }

    method RequestStop()
      requires Valid()
      modifies this
      ensures Valid() && Value() == Requested(old(Value()), AskStop)
    {
      if directive == Cancel { return; }
      directive := Stop;
    }

    method RequestCancel()
      requires Valid()
      modifies this
      ensures Valid() && Value() == Requested(old(Value()), AskCancel)
    {
      directive := Cancel;
      skips := {};
      hasPendingSkips := false;
    }

    method Reset()
      modifies this
      ensures Valid() && Value() == INITIAL
    {
      directive := Run;
      skips := {};
      hasPendingSkips := false;
    }

    method RequestSkip(id: nat)
      requires Valid()
      modifies this
      ensures Valid() && Value() == Requested(old(Value()), AskSkip(id))
    {
      if id == 0 { return; }
      if directive == Run || directive == Pause {
        skips := skips + {id};
        hasPendingSkips := true;
      }
    }

    method ConsumeSkip(id: nat) returns (granted: bool)
      requires Valid()
      modifies this
      ensures Valid() && Value() == Consumed(old(Value()), id)
      ensures granted <==> id in old(skips)
    {
      if !hasPendingSkips {
        assert skips - {id} == skips;
        return false;
      }
      if id !in skips {
        assert skips - {id} == skips;
        return false;
      }
      skips := skips - {id};
      hasPendingSkips := skips != {};
      return true;
    }
  }
}
