/** The values a copy plan is made of: files, outcomes, incidents and counters. */
module Items {
  import opened Sequences

  const MAX64: nat := 0xFFFF_FFFF_FFFF_FFFF
  const MAX32: nat := 0xFFFF_FFFF

  type Path = string

  /** A destination key up to key equality: its components, each standing for a
      class of names its directory cannot tell apart. The empty key means that the
      path could not be normalised. */
  type Key = seq<string>

  /** What a plan's key factory answers; its cache makes both answers stable. */
  datatype Keys = Keys(key: Path -> Key, policy: Path -> Option<bool>)

  datatype FileOperation = Copy | Move
  datatype ItemOutcome = Succeeded | Skipped | Failed | CopiedSourceRetained
  datatype ItemState = Pending | Active | Parked | Terminal
  datatype RecoveryAction = RetryTransfer | RetrySourceRemoval

  datatype File = File(id: nat, source: Path, destination: Path, size: nat, sensitive: Option<bool>)
  datatype Directory = Directory(destination: Path, source: Path)
  datatype Failure = Failure(source: Path, destination: Path, hresult: int)
  datatype CopyPlan = CopyPlan(
    directories: seq<Directory>, files: seq<File>, roots: seq<Path>, root: Path,
    operation: FileOperation, totalBytes: nat, largest: nat, failures: seq<Failure>)

  datatype Identity = Identity(volume: nat, file: seq<nat>)
  datatype Fingerprint = Fingerprint(size: nat, writeTime: int, identity: Option<Identity>)
  datatype Recovery = Recovery(
    fileId: nat, hresult: int, source: Path, destination: Path, preexisted: bool,
    attempts: nat, sourcePrint: Fingerprint, destinationPrint: Fingerprint)
  datatype Incident = Incident(
    fileId: nat, hresult: int, source: Path, destination: Path, preexisted: bool,
    action: RecoveryAction, attempts: nat)
  datatype ParkedFile = ParkedFile(file: File, incident: Incident, recovery: Option<Recovery>)
  datatype ItemResult = ItemResult(
    fileId: nat, outcome: ItemOutcome, hresult: int, source: Path, destination: Path, preexisted: bool)

  datatype Counters = Counters(physical: nat, succeeded: nat, weight: nat, total: nat)
  datatype Outcomes = Outcomes(succeeded: nat, skipped: nat, failed: nat, retained: nat)

  function Min(a: nat, b: nat): nat { if a <= b then a else b }
  function Max(a: nat, b: nat): nat { if a <= b then b else a }
  function Monus(a: nat, b: nat): nat { if a > b then a - b else 0 }

  /** Unchecked unsigned 64-bit addition keeps the value modulo 2^64. */
  function Wrap(n: nat): (r: nat)
    ensures r <= MAX64
    ensures n <= MAX64 ==> r == n
  {
    n % (MAX64 + 1)
  }

  function Weight(size: nat): nat { Max(size, 1) }
  predicate Successful(o: ItemOutcome) { o == Succeeded || o == CopiedSourceRetained }

  predicate ValidTransition(from: ItemState, to: ItemState) {
    match from
    case Pending => to == Active || to == Terminal
    case Active => to == Pending || to == Parked || to == Terminal
    case Parked => to == Pending || to == Terminal
    case Terminal => false
  }

  /** The high-water mark of an attempt that is still running. */
  function HighWater(previous: nat, size: nat, attemptBytes: nat): nat {
    Max(previous, Min(attemptBytes, Weight(size)))
  }

  function IdOf(f: File): nat { f.id }
  function SizeOf(f: File): nat { f.size }
  function WeightOf(f: File): nat { Weight(f.size) }

  function Get(m: map<nat, nat>, id: nat, default: nat): nat { if id in m then m[id] else default }

  function Bump(attempts: nat): nat { if attempts == MAX32 then attempts else attempts + 1 }
}
