/** Saving and loading a queue file, byte by byte, against its format. */
module QueueFiles {
  import opened Wire
  import opened Sequences
  import opened QueueArchive

  // ---- writing ----

  /** The file being written; writing text that is too long fails. */
  class FileWriter {
    var out: Bytes

    constructor ()
      ensures out == []
    {
      out := [];
    }

    /** A value of a fixed width, least significant byte first. */
    method WriteNumber(value: nat, width: nat)
      modifies this
      ensures out == old(out) + Little(value, width)
    {
      var v := value;
      LittlePart(value, width, 0);
      for i := 0 to width
        invariant out == old(out) + Little(value, width)[..i] && Little(v, width - i) == Little(value, width)[i..]
      {
        out := out + [v % 256];
        v := v / 256;
      }
    }

    lemma LittlePart(value: nat, width: nat, i: nat)
      requires i <= width
      ensures Little(value, width)[0..] == Little(value, width) && Little(value, width)[..0] == []
    {
    }

    method WriteText(t: Text) returns (ok: bool)
      modifies this
      ensures ok <==> Short(t)
      ensures ok ==> out == old(out) + Path().enc(t)
    {
      hide Little, EncMany, TextOf;
      if |t| > MAX_CHARS { return false; }
      TextWritten(MAX_CHARS, t);
      WriteNumber(|t|, 4);
      NothingYet<nat>(Number(2), t, out);
      for i := 0 to |t|
        invariant out == old(out) + Little(|t|, 4) + EncMany<nat>(Number(2), t[..i])
      {
        EncSnoc<nat>(Number(2), t, i);
        TwoBytes(t[i]);
        out := out + [t[i] % 256, t[i] / 256];
      }
      assert t[..|t|] == t;
      ok := true;
    }

    /** A count and that many paths. */
    method WriteTexts(ts: seq<Text>) returns (ok: bool)
      requires |ts| <= MAX_ENTRIES
      modifies this
      ensures ok <==> AllShort(ts)
      ensures ok ==> out == old(out) + PathList().enc(ts)
    {
      hide Little, EncMany, Path;
      WriteNumber(|ts|, 8);
      ListWritten(Path(), ts);
      assert out == old(out) + Little(|ts|, 8);
      NothingYet(Path(), ts, out);
      for i := 0 to |ts|
        invariant out == old(out) + Little(|ts|, 8) + EncMany(Path(), ts[..i])
        invariant forall j :: 0 <= j < i ==> Short(ts[j])
      {
        EncSnoc(Path(), ts, i);
        ok := WriteText(ts[i]);
        if !ok { return; }
      }
      assert ts[..|ts|] == ts;
      ok := true;
    }
  }

  lemma NothingYet<T>(c: Codec<T>, xs: seq<T>, out: Bytes)
    ensures out + EncMany(c, xs[..0]) == out
  {
  }

  lemma ListWritten<T>(c: Codec<T>, xs: seq<T>)
    ensures ListOf(Count(), c).enc(xs) == Little(|xs|, 8) + EncMany(c, xs)
    ensures EncMany(c, xs[..0]) == []
  {
    assert Count().enc(|xs|) == Little(|xs|, 8);
    hide Little;
  }

  function OperationCode(o: Operation): nat { if o == Copy then 0 else 1 }
  function LayoutCode(l: Layout): nat { if l == PreserveSourceFolder then 0 else 1 }
  function FlagCode(b: bool): nat { if b then 1 else 0 }

  lemma ChoicesWritten(o: Operation, l: Layout, b: bool)
    ensures OperationByte(3).enc(o) == Little(OperationCode(o), 1)
    ensures LayoutByte().enc(l) == Little(LayoutCode(l), 1) && Flag().enc(b) == Little(FlagCode(b), 1)
  {
    hide Little;
  }

  /** What is written field by field comes to the same as what the format puts together. */
  lemma PlanWritten(before: Bytes, k: Paths, p: Plan)
    ensures before + PlanBytes(k, 3).enc(p)
            == before + OperationByte(3).enc(p.operation) + Path().enc(p.root) + PathList().enc(p.roots)
               + PathList().enc(RawDirectories(p.directories)) + ListOf(Count(), RawFileBytes()).enc(RawFiles(p.files))
  {
    hide OperationByte, Path, PathList, RawFileBytes, Count, Contained;
    Five(before, OperationByte(3).enc(p.operation), Path().enc(p.root), PathList().enc(p.roots),
         PathList().enc(RawDirectories(p.directories)), ListOf(Count(), RawFileBytes()).enc(RawFiles(p.files)));
  }

  lemma Five(o: Bytes, a: Bytes, b: Bytes, c: Bytes, d: Bytes, e: Bytes)
    ensures o + (a + (b + (c + (d + e)))) == o + a + b + c + d + e
    ensures o + (a + (b + c)) == o + a + b + c
  {
    assert a + (b + (c + (d + e))) == a + b + c + d + e;
  }

  lemma Four(o: Bytes, a: Bytes, b: Bytes, c: Bytes, d: Bytes)
    ensures o + (a + (b + (c + d))) == o + a + b + c + d
  {
    assert a + (b + (c + d)) == a + b + c + d;
  }

  lemma FileWritten(before: Bytes, f: RawFile)
    ensures before + RawFileBytes().enc(f) == before + Path().enc(f.0) + Path().enc(f.1.0) + Little(f.1.1, 8)
  {
    hide Path, Little;
    Five(before, Path().enc(f.0), Path().enc(f.1.0), Little(f.1.1, 8), [], []);
  }

  /** The files of a plan: sources, destinations and sizes. */
  method WriteFiles(w: FileWriter, files: seq<PlanFile>) returns (ok: bool)
    requires |files| <= MAX_ENTRIES
    modifies w
    ensures ok <==> forall i :: 0 <= i < |files| ==> Short(files[i].source) && Short(files[i].destination)
    ensures ok ==> w.out == old(w.out) + ListOf(Count(), RawFileBytes()).enc(RawFiles(files))
  {
    hide Little, EncMany, Path, RawFileBytes, Count;
    var raws := RawFiles(files);
    w.WriteNumber(|files|, 8);
    ListWritten(RawFileBytes(), raws);
    for i := 0 to |files|
      invariant w.out == old(w.out) + Little(|raws|, 8) + EncMany(RawFileBytes(), raws[..i])
      invariant forall j :: 0 <= j < i ==> Short(files[j].source) && Short(files[j].destination)
    {
      EncSnoc(RawFileBytes(), raws, i);
      FileWritten(w.out, raws[i]);
      ok := w.WriteText(files[i].source);
      if !ok { return; }
      ok := w.WriteText(files[i].destination);
      if !ok { return; }
      w.WriteNumber(files[i].size, 8);
    }
    assert raws[..|raws|] == raws;
    ok := true;
  }

  method WritePlan(w: FileWriter, k: Paths, p: Plan) returns (ok: bool)
    modifies w
    ensures ok <==> PlanSavable(k, p)
    ensures ok ==> w.out == old(w.out) + PlanBytes(k, 3).enc(p)
  {
    hide Little, Path, PathList, RawFileBytes, Contained, PlanBytes, OperationByte, Count;
    if !Contained(k, RawPlanOf(p)) { return false; }
    PlanWritten(w.out, k, p);
    ChoicesWritten(p.operation, ContentsOnly, true);
    w.WriteNumber(OperationCode(p.operation), 1);
    ok := w.WriteText(p.root);
    if !ok { return; }
    if |p.roots| > MAX_ENTRIES || |p.directories| > MAX_ENTRIES || |p.files| > MAX_ENTRIES { return false; }
    ok := w.WriteTexts(p.roots);
    if !ok { return; }
    ok := w.WriteTexts(RawDirectories(p.directories));
    if !ok { return; }
    ok := WriteFiles(w, p.files);
  }

  lemma JobWritten(before: Bytes, j: Job)
    ensures before + JobBytes(3).enc(j)
            == before + Path().enc(j.destination) + LayoutByte().enc(j.layout) + OperationByte(3).enc(j.operation)
               + Path().enc(j.name) + PathList().enc(j.sources)
  {
    hide OperationByte, LayoutByte, Path, PathList;
    Five(before, Path().enc(j.destination), LayoutByte().enc(j.layout), OperationByte(3).enc(j.operation),
         Path().enc(j.name), PathList().enc(j.sources));
  }

  method WriteJob(w: FileWriter, j: Job) returns (ok: bool)
    modifies w
    ensures ok <==> JobSavable(j)
    ensures ok ==> w.out == old(w.out) + JobBytes(3).enc(j)
  {
    hide Little, Path, PathList, JobBytes, OperationByte, LayoutByte;
    if |j.sources| > MAX_ENTRIES { return false; }
    JobWritten(w.out, j);
    ChoicesWritten(j.operation, j.layout, true);
    ok := w.WriteText(j.destination);
    if !ok { return; }
    w.WriteNumber(LayoutCode(j.layout), 1);
    w.WriteNumber(OperationCode(j.operation), 1);
    ok := w.WriteText(j.name);
    if !ok { return; }
    ok := w.WriteTexts(j.sources);
  }

  method WriteJobs(w: FileWriter, js: seq<Job>) returns (ok: bool)
    modifies w
    ensures ok <==> JobsSavable(js)
    ensures ok ==> w.out == old(w.out) + JobList(3).enc(js)
  {
    hide Little, EncMany, JobBytes, JobSavable;
    if |js| > MAX_ENTRIES { return false; }
    w.WriteNumber(|js|, 8);
    ListWritten(JobBytes(3), js);
    for i := 0 to |js|
      invariant w.out == old(w.out) + Little(|js|, 8) + EncMany(JobBytes(3), js[..i])
      invariant forall j :: 0 <= j < i ==> JobSavable(js[j])
    {
      EncSnoc(JobBytes(3), js, i);
      ok := WriteJob(w, js[i]);
      if !ok { return; }
    }
    assert js[..|js|] == js;
    ok := true;
  }

  function SignedCode(x: int, half: nat): nat { if x >= 0 then x else if x + 2 * half >= 0 then x + 2 * half else 0 }

  lemma SignedWritten(x: int)
    ensures Signed32().enc(x) == Little(SignedCode(x, 0x8000_0000), 4)
    ensures Signed64().enc(x) == Little(SignedCode(x, 0x8000_0000_0000_0000), 8)
  {
    hide Little;
  }

  function IdentityWritten(p: Print): Bytes { if p.hasIdentity then Little(p.volume, 8) + p.file else [] }

  lemma PrintWritten(before: Bytes, p: Print)
    ensures before + PrintBytes().enc(RawPrintOf(p))
            == before + Little(p.size, 8) + Signed64().enc(p.time) + Little(FlagCode(p.hasIdentity), 1) + IdentityWritten(p)
  {
    OneByte(FlagCode(p.hasIdentity));
    hide Little, Signed64;
    var flag := Little(FlagCode(p.hasIdentity), 1);
    assert PrintBytes().enc(RawPrintOf(p)) == Little(p.size, 8) + (Signed64().enc(p.time) + (flag + IdentityWritten(p)));
    Four(before, Little(p.size, 8), Signed64().enc(p.time), flag, IdentityWritten(p));
  }

  method WritePrint(w: FileWriter, p: Print)
    modifies w
    ensures w.out == old(w.out) + PrintBytes().enc(RawPrintOf(p))
  {
    hide Little, PrintBytes, Signed64;
    PrintWritten(w.out, p);
    SignedWritten(p.time);
    w.WriteNumber(p.size, 8);
    w.WriteNumber(SignedCode(p.time, 0x8000_0000_0000_0000), 8);
    w.WriteNumber(FlagCode(p.hasIdentity), 1);
    if p.hasIdentity {
      w.WriteNumber(p.volume, 8);
      w.out := w.out + p.file;
    }
  }

  lemma RemovalWritten(before: Bytes, r: Removal)
    ensures before + RemovalBytes().enc(r)
            == before + Signed32().enc(r.hresult) + Path().enc(r.source) + Path().enc(r.destination)
               + Flag().enc(r.preexisted) + Little(r.attempts, 4)
               + PrintBytes().enc(RawPrintOf(r.sourcePrint)) + PrintBytes().enc(RawPrintOf(r.destinationPrint))
  {
    assert Attempts().enc(r.attempts) == Little(r.attempts, 4);
    hide Little, Signed32, Path, Flag, Attempts, PrintBytes;
    var prints := PrintBytes().enc(RawPrintOf(r.sourcePrint)) + PrintBytes().enc(RawPrintOf(r.destinationPrint));
    var upTo := before + Signed32().enc(r.hresult) + Path().enc(r.source) + Path().enc(r.destination) + Flag().enc(r.preexisted);
    Five(before, Signed32().enc(r.hresult), Path().enc(r.source), Path().enc(r.destination), Flag().enc(r.preexisted),
         Little(r.attempts, 4) + prints);
    Five(upTo, Little(r.attempts, 4), PrintBytes().enc(RawPrintOf(r.sourcePrint)),
         PrintBytes().enc(RawPrintOf(r.destinationPrint)), [], []);
  }

  method WriteRemoval(w: FileWriter, r: Removal) returns (ok: bool)
    modifies w
    ensures ok <==> RemovalSavable(r)
    ensures ok ==> w.out == old(w.out) + RemovalBytes().enc(r)
  {
    hide Little, Path, PrintBytes, RemovalBytes, Signed32, Flag;
    RemovalWritten(w.out, r);
    SignedWritten(r.hresult);
    ChoicesWritten(Copy, ContentsOnly, r.preexisted);
    w.WriteNumber(SignedCode(r.hresult, 0x8000_0000), 4);
    ok := w.WriteText(r.source);
    if !ok { return; }
    ok := w.WriteText(r.destination);
    if !ok { return; }
    w.WriteNumber(FlagCode(r.preexisted), 1);
    w.WriteNumber(r.attempts, 4);
    WritePrint(w, r.sourcePrint);
    WritePrint(w, r.destinationPrint);
  }

  method WriteRemovals(w: FileWriter, rs: seq<Removal>) returns (ok: bool)
    modifies w
    ensures ok <==> |rs| <= MAX_ENTRIES && forall i :: 0 <= i < |rs| ==> RemovalSavable(rs[i])
    ensures ok ==> w.out == old(w.out) + RemovalList(3).enc(rs)
  {
    hide Little, EncMany, RemovalBytes, RemovalSavable;
    if |rs| > MAX_ENTRIES { return false; }
    w.WriteNumber(|rs|, 8);
    ListWritten(RemovalBytes(), rs);
    for i := 0 to |rs|
      invariant w.out == old(w.out) + Little(|rs|, 8) + EncMany(RemovalBytes(), rs[..i])
      invariant forall j :: 0 <= j < i ==> RemovalSavable(rs[j])
    {
      EncSnoc(RemovalBytes(), rs, i);
      ok := WriteRemoval(w, rs[i]);
      if !ok { return; }
    }
    assert rs[..|rs|] == rs;
    ok := true;
  }

  function CurrentWritten(k: Paths, current: Option<Plan>): Bytes {
    match current case None => [] case Some(p) => PlanBytes(k, 3).enc(p)
  }

  lemma BodyWritten(k: Paths, a: Archive)
    ensures Body(k, 3).enc(PartsOf(a))
            == (Little(FlagCode(a.current.Some?), 1) + CurrentWritten(k, a.current))
               + (JobList(3).enc(a.appends) + (JobList(3).enc(a.queued) + RemovalList(3).enc(a.removals)))
  {
    hide Little, PlanBytes, JobList, RemovalList, Body, CurrentWritten, EncMaybe;
    BodyForm(k, 3, PartsOf(a));
    MaybeWritten(k, a.current);
  }

  lemma MaybeWritten(k: Paths, current: Option<Plan>)
    ensures EncMaybe(PlanBytes(k, 3), current) == Little(FlagCode(current.Some?), 1) + CurrentWritten(k, current)
  {
    OneByte(FlagCode(current.Some?));
    hide Little, PlanBytes;
  }

  lemma ImageWritten(k: Paths, a: Archive)
    ensures Image(k, a)
            == MAGIC + Little(FORMAT_VERSION, 4) + Little(FlagCode(a.current.Some?), 1) + CurrentWritten(k, a.current)
               + JobList(3).enc(a.appends) + JobList(3).enc(a.queued) + RemovalList(3).enc(a.removals)
  {
    BodyWritten(k, a);
    hide Little, JobList, RemovalList, Body, CurrentWritten, PartsOf;
    Joined(MAGIC + Little(FORMAT_VERSION, 4), Little(FlagCode(a.current.Some?), 1), CurrentWritten(k, a.current),
           JobList(3).enc(a.appends), JobList(3).enc(a.queued), RemovalList(3).enc(a.removals));
  }

  lemma Joined(o: Bytes, a: Bytes, b: Bytes, c: Bytes, d: Bytes, e: Bytes)
    ensures o + ((a + b) + (c + (d + e))) == o + a + b + c + d + e
  {
    assert (a + b) + (c + (d + e)) == a + b + c + d + e;
  }

  /** What follows the plan: the jobs still to append, the queued ones, and the source removals. */
  method WriteLists(w: FileWriter, a: Archive) returns (ok: bool)
    modifies w
    ensures ok <==> JobsSavable(a.appends) && JobsSavable(a.queued)
                    && |a.removals| <= MAX_ENTRIES && forall i :: 0 <= i < |a.removals| ==> RemovalSavable(a.removals[i])
    ensures ok ==> w.out == old(w.out) + JobList(3).enc(a.appends) + JobList(3).enc(a.queued) + RemovalList(3).enc(a.removals)
  {
    hide JobList, RemovalList, JobsSavable, RemovalSavable;
    ok := WriteJobs(w, a.appends);
    if !ok { return; }
    ok := WriteJobs(w, a.queued);
    if !ok { return; }
    ok := WriteRemovals(w, a.removals);
  }

  /** Save an archive: just the savable ones, as their image. */
  method Save(k: Paths, a: Archive) returns (r: Option<Bytes>)
    ensures r.Some? <==> Savable(k, a)
    ensures r.Some? ==> r.value == Image(k, a)
  {
    hide Little, PlanBytes, JobList, RemovalList, PlanSavable, JobsSavable, RemovalSavable, Image;
    ImageWritten(k, a);
    var w := new FileWriter();
    w.out := w.out + MAGIC;
    w.WriteNumber(FORMAT_VERSION, 4);
    w.WriteNumber(FlagCode(a.current.Some?), 1);
    var ok := true;
    if a.current.Some? {
      ok := WritePlan(w, k, a.current.value);
      if !ok { return None; }
    }
    ok := WriteLists(w, a);
    r := if ok then Some(w.out) else None;
  }

  // ---- reading ----

  /** What reading gave is what the codec makes of the bytes that were ahead. */
  ghost predicate Reads<T>(c: Codec<T>, before: Bytes, r: Option<T>, after: Bytes) {
    c.dec(before) == match r case None => Bad case Some(v) => Got(v, after)
  }

  /** The file being read; reading beyond its end fails. */
  class FileReader {
    var left: Bytes

    constructor (bytes: Bytes)
      ensures left == bytes
    {
      left := bytes;
    }

    method ReadNumber(width: nat) returns (r: Option<nat>)
      modifies this
      ensures Reads(Number(width), old(left), r, left)
      ensures r.Some? ==> r.value < Span(width)
    {
      if |left| < width { return None; }
      var value: nat := 0;
      for i := width downto 0
        invariant value == Value(left[i..width])
      {
        assert left[i..width][1..] == left[i + 1..width];
        value := left[i] + 256 * value;
      }
      ValueLittle(left[..width]);
      assert left[0..width] == left[..width];
      left := left[width..];
      r := Some(value);
    }

    /** A number that says how many entries follow. */
    method ReadCount() returns (r: Option<nat>)
      modifies this
      ensures Reads(Count(), old(left), r, left)
    {
      hide Number;
      r := ReadNumber(8);
      if r.Some? && r.value > MAX_ENTRIES { r := None; }
    }

    method ReadText() returns (r: Option<Text>)
      modifies this
      ensures Reads(Path(), old(left), r, left)
    {
      hide Number, DecMany, TextOf, Units;
      TextRead(MAX_CHARS, left);
      var size := ReadNumber(4);
      if size.None? || size.value > MAX_CHARS { return None; }
      ManyFixed(2, size.value, left);
      if 2 * size.value > |left| { return None; }
      var text: Text := [];
      ghost var behind := left;
      ManyStep<nat>(Number(2), [], size.value, left);
      for i := 0 to size.value
        invariant |text| == i && 2 * (size.value - i) <= |left|
        invariant Ahead<nat>(text, DecMany(Number(2), size.value - i, left)) == DecMany(Number(2), size.value, behind)
      {
        ManyStep<nat>(Number(2), text, size.value - i, left);
        UnitRead(left);
        text := text + [Two(left[0], left[1])];
        left := left[2..];
      }
      ManyStep<nat>(Number(2), text, 0, left);
      UnitsSame(text);
      r := Some(text);
    }

    /** A count and that many paths. */
    method ReadTexts() returns (r: Option<seq<Text>>)
      modifies this
      ensures Reads(PathList(), old(left), r, left)
    {
      hide Count, Path, ListOf, DecMany;
      ListRead(Path(), left);
      var count := ReadCount();
      if count.None? { return None; }
      var texts := [];
      ghost var behind := left;
      ManyStep(Path(), [], count.value, left);
      for i := 0 to count.value
        invariant Ahead(texts, DecMany(Path(), count.value - i, left)) == DecMany(Path(), count.value, behind)
      {
        ManyStep(Path(), texts, count.value - i, left);
        var text := ReadText();
        if text.None? { return None; }
        texts := texts + [text.value];
      }
      ManyStep(Path(), texts, 0, left);
      r := Some(texts);
    }
  }

  lemma ListRead<T>(c: Codec<T>, bs: Bytes)
    ensures ListOf(Count(), c).dec(bs)
            == match Count().dec(bs) case Bad => Bad case Got(n, rest) => DecMany(c, n, rest)
  {
    hide Count, DecMany;
    assert ListOf(Count(), c).dec(bs) == TakeList(Count(), c, bs);
  }

  /** A byte that is 0 or 1. */
  method ReadChoice(f: FileReader) returns (r: Option<nat>)
    modifies f
    ensures Reads(OneOfTwo(), old(f.left), r, f.left)
  {
    hide Number;
    r := f.ReadNumber(1);
    if r.Some? && r.value > 1 { r := None; }
  }

  method ReadFlag(f: FileReader) returns (r: Option<bool>)
    modifies f
    ensures Reads(Flag(), old(f.left), r, f.left)
  {
    hide OneOfTwo;
    var code := ReadChoice(f);
    r := if code.None? then None else Some(code.value != 0);
  }

  method ReadLayout(f: FileReader) returns (r: Option<Layout>)
    modifies f
    ensures Reads(LayoutByte(), old(f.left), r, f.left)
  {
    hide OneOfTwo;
    var code := ReadChoice(f);
    r := if code.None? then None else Some(if code.value == 0 then PreserveSourceFolder else ContentsOnly);
  }

  method ReadOperation(f: FileReader, version: nat) returns (r: Option<Operation>)
    modifies f
    ensures Reads(OperationByte(version), old(f.left), r, f.left)
  {
    hide OneOfTwo;
    if version < 2 { return Some(Copy); }
    var code := ReadChoice(f);
    r := if code.None? then None else Some(if code.value == 0 then Copy else Move);
  }

  // ---- plans ----

  datatype FileList = FileList(files: seq<PlanFile>, total: nat, largest: nat)

  lemma FileRead(bs: Bytes)
    ensures RawFileBytes().dec(bs)
            == match Path().dec(bs) case Bad => Bad case Got(source, b) =>
               match Path().dec(b) case Bad => Bad case Got(destination, c) =>
               match Number(8).dec(c) case Bad => Bad case Got(size, rest) => Got((source, (destination, size)), rest)
  {
    hide Path, Number;
  }

  /** Sizes of some files add up to no more than those of all. */
  lemma {:induction false} SumOfPart(a: seq<RawFile>, b: seq<RawFile>)
    ensures SizeSum(a) <= SizeSum(a + b)
  {
    if b == [] {
      assert a + b == a;
    } else {
      SumOfPart(a, b[..|b| - 1]);
      assert (a + b)[..|a + b| - 1] == a + b[..|b| - 1];
    }
  }

  lemma FilesSnoc(raws: seq<RawFile>, raw: RawFile)
    requires |raws| < MAX64 && raw.1.1 <= MAX64
    ensures FilesOf(raws + [raw]) == FilesOf(raws) + [PlanFile(|raws| + 1, raw.0, raw.1.0, raw.1.1, None)]
    ensures SizeSum(raws + [raw]) == SizeSum(raws) + raw.1.1
    ensures SizeMax(raws + [raw]) == Larger(SizeMax(raws), raw.1.1)
  {
    hide FilesOf;
    assert (raws + [raw])[..|raws|] == raws;
    Numbered(raws, raw);
  }

  lemma Numbered(raws: seq<RawFile>, raw: RawFile)
    requires |raws| < MAX64 && raw.1.1 <= MAX64
    ensures FilesOf(raws + [raw]) == FilesOf(raws) + [PlanFile(|raws| + 1, raw.0, raw.1.0, raw.1.1, None)]
  {
    var all, part := FilesOf(raws + [raw]), FilesOf(raws);
    assert |all| == |raws| + 1 && |part| == |raws|;
    forall i | 0 <= i < |raws|
      ensures all[i] == part[i]
    {
    }
    assert all == part + [all[|raws|]];
  }

  /** The files of a plan, counted and numbered as they come; sizes that no longer add up
      within 64 bits stop the reading. */
  method ReadFiles(f: FileReader) returns (r: Option<FileList>)
    modifies f
    ensures var g := ListOf(Count(), RawFileBytes()).dec(old(f.left));
      && (r.Some? <==> g.Got? && SizeSum(g.value) <= MAX64)
      && (r.Some? ==> r.value == FileList(FilesOf(g.value), SizeSum(g.value), SizeMax(g.value)) && f.left == g.rest)
  {
    hide Count, Path, RawFileBytes, DecMany, Number, SizeSum, SizeMax, FilesOf;
    Spans();
    ListRead(RawFileBytes(), f.left);
    var count := f.ReadCount();
    if count.None? { return None; }
    CountsFit(old(f.left));
    NoFiles();
    var files, total, largest := [], 0, 0;
    ghost var behind, raws := f.left, [];
    ManyStep(RawFileBytes(), [], count.value, f.left);
    for i := 0 to count.value
      invariant Ahead(raws, DecMany(RawFileBytes(), count.value - i, f.left)) == DecMany(RawFileBytes(), count.value, behind)
      invariant files == FilesOf(raws) && total == SizeSum(raws) <= MAX64 && largest == SizeMax(raws) && |raws| == |files| == i
    {
      ManyStep(RawFileBytes(), raws, count.value - i, f.left);
      FileRead(f.left);
      var source := f.ReadText();
      if source.None? { return None; }
      var destination := f.ReadText();
      if destination.None? { return None; }
      var size := f.ReadNumber(8);
      if size.None? { return None; }
      ghost var raw := (source.value, (destination.value, size.value));
      FilesSnoc(raws, raw);
      if MAX64 - total < size.value {
        TooMuch(raws + [raw], DecMany(RawFileBytes(), count.value - i - 1, f.left));
        return None;
      }
      total := total + size.value;
      largest := Larger(largest, size.value);
      files := files + [PlanFile(i + 1, source.value, destination.value, size.value, None)];
      raws := raws + [raw];
    }
    ManyStep(RawFileBytes(), raws, 0, f.left);
    r := Some(FileList(files, total, largest));
  }

  lemma TooMuch(raws: seq<RawFile>, g: Got<seq<RawFile>>)
    requires SizeSum(raws) > MAX64
    ensures var all := Ahead(raws, g); all.Got? ==> SizeSum(all.value) > MAX64
  {
    if g.Got? { SumOfPart(raws, g.value); }
  }

  lemma NoFiles()
    ensures FilesOf([]) == [] && SizeSum([]) == 0 && SizeMax([]) == 0
  {
  }

  lemma CountsFit(bs: Bytes)
    ensures Count().dec(bs).Got? ==> Count().dec(bs).value <= MAX_ENTRIES
  {
  }

  function PlanFrom(k: Paths, operation: Operation, root: Text, roots: seq<Text>, directories: seq<Text>, g: Got<seq<RawFile>>): Got<Plan> {
    match g
    case Bad => Bad
    case Got(files, rest) =>
      var raw := (operation, (root, (roots, (directories, files))));
      if SizeSum(files) <= MAX64 && Contained(k, raw) then Got(PlanOf(raw), rest) else Bad
  }

  lemma PlanRead(k: Paths, version: nat, bs: Bytes)
    ensures PlanBytes(k, version).dec(bs)
            == match OperationByte(version).dec(bs) case Bad => Bad case Got(operation, a) =>
               match Path().dec(a) case Bad => Bad case Got(root, b) =>
               match PathList().dec(b) case Bad => Bad case Got(roots, c) =>
               match PathList().dec(c) case Bad => Bad case Got(directories, d) =>
               PlanFrom(k, operation, root, roots, directories, ListOf(Count(), RawFileBytes()).dec(d))
  {
    hide OperationByte, Path, PathList, ListOf, RawFileBytes, Count, Contained, PlanOf, SizeSum;
  }

  method ReadPlan(f: FileReader, k: Paths, version: nat) returns (r: Option<Plan>)
    modifies f
    ensures Reads(PlanBytes(k, version), old(f.left), r, f.left)
  {
    hide OperationByte, Path, PathList, ListOf, RawFileBytes, Count, Contained, SizeSum, SizeMax, PlanBytes, FilesOf;
    PlanRead(k, version, f.left);
    var operation := ReadOperation(f, version);
    if operation.None? { return None; }
    var root := f.ReadText();
    if root.None? { return None; }
    var roots := f.ReadTexts();
    if roots.None? { return None; }
    var directories := f.ReadTexts();
    if directories.None? { return None; }
    ghost var g := ListOf(Count(), RawFileBytes()).dec(f.left);
    var list := ReadFiles(f);
    if list.None? { return None; }
    var plan := Plan(DirectoriesOf(directories.value), list.value.files, roots.value, root.value,
                     operation.value, list.value.total, list.value.largest, []);
    RawOfRead(operation.value, root.value, roots.value, directories.value, g.value);
    assert plan == PlanOf((operation.value, (root.value, (roots.value, (directories.value, g.value)))));
    r := if Contained(k, RawPlanOf(plan)) then Some(plan) else None;
  }

  lemma RawOfRead(operation: Operation, root: Text, roots: seq<Text>, directories: seq<Text>, files: seq<RawFile>)
    requires SizeSum(files) <= MAX64
    ensures var raw := (operation, (root, (roots, (directories, files)))); RawPlanOf(PlanOf(raw)) == raw
  {
    SizesFit(files);
    assert RawDirectories(DirectoriesOf(directories)) == directories;
    assert RawFiles(FilesOf(files)) == files;
  }

  lemma {:induction false} SizesFit(files: seq<RawFile>)
    ensures forall i :: 0 <= i < |files| ==> files[i].1.1 <= SizeSum(files)
  {
    if files != [] { SizesFit(files[..|files| - 1]); }
  }

  // ---- jobs ----

  lemma JobRead(version: nat, bs: Bytes)
    ensures JobBytes(version).dec(bs)
            == match Path().dec(bs) case Bad => Bad case Got(destination, a) =>
               match LayoutByte().dec(a) case Bad => Bad case Got(layout, b) =>
               match OperationByte(version).dec(b) case Bad => Bad case Got(operation, c) =>
               match Path().dec(c) case Bad => Bad case Got(name, d) =>
               match PathList().dec(d) case Bad => Bad case Got(sources, rest) =>
               Got(Job(0, sources, destination, layout, operation, Pending, name), rest)
  {
    hide OperationByte, LayoutByte, Path, PathList;
  }

  method ReadJob(f: FileReader, version: nat) returns (r: Option<Job>)
    modifies f
    ensures Reads(JobBytes(version), old(f.left), r, f.left)
  {
    hide OperationByte, LayoutByte, Path, PathList, JobBytes;
    JobRead(version, f.left);
    var destination := f.ReadText();
    if destination.None? { return None; }
    var layout := ReadLayout(f);
    if layout.None? { return None; }
    var operation := ReadOperation(f, version);
    if operation.None? { return None; }
    var name := f.ReadText();
    if name.None? { return None; }
    var sources := f.ReadTexts();
    if sources.None? { return None; }
    r := Some(Job(0, sources.value, destination.value, layout.value, operation.value, Pending, name.value));
  }

  method ReadJobs(f: FileReader, version: nat) returns (r: Option<seq<Job>>)
    modifies f
    ensures Reads(JobList(version), old(f.left), r, f.left)
  {
    hide Count, JobBytes, ListOf, DecMany;
    ListRead(JobBytes(version), f.left);
    var count := f.ReadCount();
    if count.None? { return None; }
    var jobs := [];
    ghost var behind := f.left;
    ManyStep(JobBytes(version), [], count.value, f.left);
    for i := 0 to count.value
      invariant Ahead(jobs, DecMany(JobBytes(version), count.value - i, f.left)) == DecMany(JobBytes(version), count.value, behind)
    {
      ManyStep(JobBytes(version), jobs, count.value - i, f.left);
      var job := ReadJob(f, version);
      if job.None? { return None; }
      jobs := jobs + [job.value];
    }
    ManyStep(JobBytes(version), jobs, 0, f.left);
    r := Some(jobs);
  }

  // ---- source removals ----

  method ReadSigned32(f: FileReader) returns (r: Option<I32>)
    modifies f
    ensures var g := Signed32().dec(old(f.left));
      g == match r case None => Bad case Some(x) => Got(x, f.left)
  {
    hide Number;
    Spans();
    var code := f.ReadNumber(4);
    if code.None? { return None; }
    var x: int := code.value;
    if x >= 0x8000_0000 { x := x - 0x1_0000_0000; }
    r := Some(x);
  }

  method ReadSigned64(f: FileReader) returns (r: Option<I64>)
    modifies f
    ensures var g := Signed64().dec(old(f.left));
      g == match r case None => Bad case Some(x) => Got(x, f.left)
  {
    hide Number;
    Spans();
    var code := f.ReadNumber(8);
    if code.None? { return None; }
    var x: int := code.value;
    if x >= 0x8000_0000_0000_0000 { x := x - 0x1_0000_0000_0000_0000; }
    r := Some(x);
  }

  function WithIdentity(size: nat, time: int, g: Got<Option<(nat, Bytes)>>): Got<RawPrint> {
    match g case Bad => Bad case Got(id, rest) => Got((size, (time, id)), rest)
  }

  lemma PrintRead(bs: Bytes)
    ensures PrintBytes().dec(bs)
            == match Number(8).dec(bs) case Bad => Bad case Got(size, a) =>
               match Signed64().dec(a) case Bad => Bad case Got(time, b) =>
               WithIdentity(size, time, Maybe(Pair(Number(8), Fixed(16))).dec(b))
  {
    hide Number, Signed64, Maybe, Fixed;
  }

  lemma IdentityRead(bs: Bytes)
    ensures Maybe(Pair(Number(8), Fixed(16))).dec(bs)
            == match Flag().dec(bs) case Bad => Bad case Got(present, a) =>
               if !present then Got(None, a)
               else match Number(8).dec(a) case Bad => Bad case Got(volume, b) =>
               if |b| < 16 then Bad else Got(Some((volume, b[..16])), b[16..])
  {
    ByteRead(bs);
    hide Number;
  }

  /** A fingerprint: a size, a time, and an identity if there is one. */
  method ReadPrint(f: FileReader) returns (r: Option<Print>)
    modifies f
    ensures var g := PrintBytes().dec(old(f.left));
      && (r.None? <==> g.Bad?)
      && (r.Some? ==> g.Got? && r.value == PrintOf(g.value) && f.left == g.rest)
  {
    hide Number, Signed64, Maybe, Fixed, Flag, PrintBytes;
    Spans();
    PrintRead(f.left);
    var size := f.ReadNumber(8);
    if size.None? { return None; }
    var time := ReadSigned64(f);
    if time.None? { return None; }
    IdentityRead(f.left);
    var present := ReadFlag(f);
    if present.None? { return None; }
    if !present.value { return Some(Print(size.value, time.value, false, 0, NO_ID)); }
    var volume := f.ReadNumber(8);
    if volume.None? || |f.left| < 16 { return None; }
    r := Some(Print(size.value, time.value, true, volume.value, f.left[..16]));
    f.left := f.left[16..];
  }

  function WithPrints(hresult: int, source: Text, destination: Text, preexisted: bool, attempts: nat, a: Got<RawPrint>): Got<Removal> {
    match a
    case Bad => Bad
    case Got(x, rest) =>
      match PrintBytes().dec(rest)
      case Bad => Bad
      case Got(y, end) =>
        Got(Removal(0, FitCode(hresult), source, destination, preexisted, Fit32(attempts), PrintOf(x), PrintOf(y)), end)
  }

  lemma RemovalRead(bs: Bytes)
    ensures RemovalBytes().dec(bs)
            == match Signed32().dec(bs) case Bad => Bad case Got(hresult, a) =>
               match Path().dec(a) case Bad => Bad case Got(source, b) =>
               match Path().dec(b) case Bad => Bad case Got(destination, c) =>
               match Flag().dec(c) case Bad => Bad case Got(preexisted, d) =>
               match Attempts().dec(d) case Bad => Bad case Got(attempts, e) =>
               WithPrints(hresult, source, destination, preexisted, attempts, PrintBytes().dec(e))
  {
    hide Signed32, Path, Flag, Attempts, PrintBytes, PrintOf;
  }

  method ReadAttempts(f: FileReader) returns (r: Option<nat>)
    modifies f
    ensures Reads(Attempts(), old(f.left), r, f.left)
    ensures r.Some? ==> r.value <= MAX32
  {
    hide Number;
    Spans();
    r := f.ReadNumber(4);
    if r.Some? && r.value == 0 { r := None; }
  }

  method ReadRemoval(f: FileReader) returns (r: Option<Removal>)
    modifies f
    ensures Reads(RemovalBytes(), old(f.left), r, f.left)
  {
    hide Signed32, Path, Flag, Attempts, PrintBytes, PrintOf, RemovalBytes;
    RemovalRead(f.left);
    var hresult := ReadSigned32(f);
    if hresult.None? { return None; }
    var source := f.ReadText();
    if source.None? { return None; }
    var destination := f.ReadText();
    if destination.None? { return None; }
    var preexisted := ReadFlag(f);
    if preexisted.None? { return None; }
    var attempts := ReadAttempts(f);
    if attempts.None? { return None; }
    var sourcePrint := ReadPrint(f);
    if sourcePrint.None? { return None; }
    var destinationPrint := ReadPrint(f);
    if destinationPrint.None? { return None; }
    r := Some(Removal(0, hresult.value, source.value, destination.value, preexisted.value, attempts.value,
                      sourcePrint.value, destinationPrint.value));
  }

  /** Source removals; before version 3 there were none. */
  method ReadRemovals(f: FileReader, version: nat) returns (r: Option<seq<Removal>>)
    modifies f
    ensures Reads(RemovalList(version), old(f.left), r, f.left)
  {
    hide Count, RemovalBytes, ListOf, DecMany;
    if version < 3 { return Some([]); }
    ListRead(RemovalBytes(), f.left);
    var count := f.ReadCount();
    if count.None? { return None; }
    var removals := [];
    ghost var behind := f.left;
    ManyStep(RemovalBytes(), [], count.value, f.left);
    for i := 0 to count.value
      invariant Ahead(removals, DecMany(RemovalBytes(), count.value - i, f.left)) == DecMany(RemovalBytes(), count.value, behind)
    {
      ManyStep(RemovalBytes(), removals, count.value - i, f.left);
      var removal := ReadRemoval(f);
      if removal.None? { return None; }
      removals := removals + [removal.value];
    }
    ManyStep(RemovalBytes(), removals, 0, f.left);
    r := Some(removals);
  }

  // ---- whole files ----

  lemma BodyRead(k: Paths, version: nat, bs: Bytes)
    ensures Body(k, version).dec(bs)
            == match Maybe(PlanBytes(k, version)).dec(bs) case Bad => Bad case Got(current, a) =>
               match JobList(version).dec(a) case Bad => Bad case Got(appends, b) =>
               match JobList(version).dec(b) case Bad => Bad case Got(queued, c) =>
               match RemovalList(version).dec(c) case Bad => Bad case Got(removals, rest) =>
               Got((current, (appends, (queued, removals))), rest)
  {
    hide Maybe, PlanBytes, JobList, RemovalList;
  }

  lemma CurrentRead(k: Paths, version: nat, bs: Bytes)
    ensures Maybe(PlanBytes(k, version)).dec(bs)
            == match Flag().dec(bs) case Bad => Bad case Got(present, a) =>
               if !present then Got(None, a)
               else match PlanBytes(k, version).dec(a) case Bad => Bad case Got(plan, rest) => Got(Some(plan), rest)
  {
    ByteRead(bs);
    hide Number, PlanBytes;
  }

  method ReadCurrent(f: FileReader, k: Paths, version: nat) returns (r: Option<Option<Plan>>)
    modifies f
    ensures Reads(Maybe(PlanBytes(k, version)), old(f.left), r, f.left)
  {
    hide Flag, PlanBytes, Maybe;
    CurrentRead(k, version, f.left);
    var present := ReadFlag(f);
    if present.None? { return None; }
    if !present.value { return Some(None); }
    var plan := ReadPlan(f, k, version);
    r := if plan.None? then None else Some(plan);
  }

  /** Load a queue file. */
  method Load(k: Paths, bytes: Bytes) returns (r: Option<Archive>)
    ensures r == Loaded(k, bytes)
  {
    hide Body, PlanBytes, JobList, RemovalList, Maybe, Value;
    if |bytes| > MAX_ARCHIVE || |bytes| < 8 || bytes[..8] != MAGIC { return None; }
    var f := new FileReader(bytes[8..]);
    assert |bytes| >= 12 ==> bytes[8..][..4] == bytes[8..12] && bytes[8..][4..] == bytes[12..];
    NumberReads(bytes[8..]);
    var version := f.ReadNumber(4);
    if version.None? || version.value < 1 || version.value > 3 { return None; }
    BodyRead(k, version.value, f.left);
    var current := ReadCurrent(f, k, version.value);
    if current.None? { return None; }
    var appends := ReadJobs(f, version.value);
    if appends.None? { return None; }
    var queued := ReadJobs(f, version.value);
    if queued.None? { return None; }
    var removals := ReadRemovals(f, version.value);
    if removals.None? || f.left != [] { return None; }
    r := Some(Archive(current.value, appends.value, queued.value, removals.value));
  }

  lemma NumberReads(bs: Bytes)
    ensures Number(4).dec(bs) == if |bs| < 4 then Bad else Got(Value(bs[..4]), bs[4..])
  {
  }
}
