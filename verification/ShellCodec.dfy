/** The request a shell extension sends: its two wire formats, writer and reader. */
module ShellCodec {
  import opened Wire
  import opened Sequences

  type U32 = n: nat | n <= MAX32
  type U64 = n: nat | n <= MAX64

  const MAGIC: U32 := 0x3150_4356
  const MAX_MESSAGE: nat := 16 * 1024 * 1024
  const MAX_CHARS: nat := 32768
  const MAX_SOURCES: nat := 65535

  const TRANSFER: Byte := 0
  const OPEN_VELOCITY_COPY: Byte := 1
  const COPY: Byte := 0
  const MOVE: Byte := 1
  const PRESERVE_SOURCE_FOLDER: Byte := 0
  const CONTENTS_ONLY: Byte := 1

  /** The enumerations are bytes: a reader casts them before it checks them. */
  datatype Request = Request(
    version: U32, id: U64, action: Byte, layout: Byte, operation: Byte, sources: seq<Text>, destination: Text)

  predicate ValidPath(absolute: Text -> bool, p: Text) { absolute(p) && 0 !in p }

  /** The requests that make sense; what an absolute path is, is a parameter. */
  predicate Valid(absolute: Text -> bool, r: Request) {
    && (r.version == 2 || r.version == 3) && (r.version == 2 ==> r.id == 0) && (r.version == 3 ==> r.id != 0)
    && (r.action == TRANSFER || r.action == OPEN_VELOCITY_COPY)
    && (r.operation == COPY || r.operation == MOVE)
    && (r.layout == PRESERVE_SOURCE_FOLDER || r.layout == CONTENTS_ONLY)
    && (if r.action == OPEN_VELOCITY_COPY then r.sources == [] && r.destination == [] && r.operation == COPY
        else r.sources != [] && ValidPath(absolute, r.destination)
             && forall i :: 0 <= i < |r.sources| ==> ValidPath(absolute, r.sources[i]))
  }

  // ---- the format ----

  function PathText(): Codec<Text> { TextOf(MAX_CHARS) }

  function PathList(): Codec<seq<Text>> { ListOf(Only(Number(4), AtMost(MAX_SOURCES)), PathText()) }

  /** A request on the wire. */
  function Message(r: Request): Bytes {
    Little(MAGIC, 4) + Little(r.version, 4) + (if r.version == 3 then Little(r.id, 8) else [])
    + [r.action, r.layout, r.operation, 0]
    + Little(|r.sources|, 4) + EncMany(PathText(), r.sources) + PathText().enc(r.destination)
  }

  /** What the writer writes. */
  predicate Encodable(absolute: Text -> bool, r: Request) {
    && Valid(absolute, r) && |r.sources| <= MAX_SOURCES
    && (forall i :: 0 <= i < |r.sources| ==> |r.sources[i]| <= MAX_CHARS) && |r.destination| <= MAX_CHARS
    && |Message(r)| <= MAX_MESSAGE
  }

  /** Reading ends with a request, with nothing, or by reading bytes that are not there. */
  datatype Outcome = Accepted(request: Request) | Rejected | ReadsPastEnd

  type Tags = (nat, (nat, (nat, nat)))
  type Body = (Tags, (seq<Text>, Text))

  function IsMagic(): nat -> bool { (n: nat) => n == MAGIC }
  function IsZero(): nat -> bool { (n: nat) => n == 0 }

  function Prelude(): Codec<(nat, nat)> { Pair(Only(Number(4), IsMagic()), Number(4)) }

  function TagBytes(): Codec<Tags> {
    Pair(Number(1), Pair(Number(1), Pair(Number(1), Only(Number(1), IsZero()))))
  }

  function BodyBytes(): Codec<Body> { Pair(TagBytes(), Pair(PathList(), PathText())) }

  function IdBytes(): Codec<(nat, Body)> { Pair(Number(8), BodyBytes()) }

  function Built(version: nat, id: nat, b: Body): Request
    requires version <= MAX32 && id <= MAX64 && b.0.0 < 256 && b.0.1.0 < 256 && b.0.1.1.0 < 256
  {
    Request(version, id, b.0.0, b.0.1.0, b.0.1.1.0, b.1.0, b.1.1)
  }

  function BodyOf(r: Request): Body { ((r.action, (r.layout, (r.operation, 0))), (r.sources, r.destination)) }

  predicate Small(b: Body) { b.0.0 < 256 && b.0.1.0 < 256 && b.0.1.1.0 < 256 }

  function Checked(absolute: Text -> bool, r: Request, rest: Bytes): Outcome {
    if rest == [] && Valid(absolute, r) then Accepted(r) else Rejected
  }

  /** What comes after the version. */
  function ParseRest(absolute: Text -> bool, version: U32, bs: Bytes): Outcome {
    if |bs| < 4 then Rejected
    else if version == 3 then
      match Number(8).dec(bs)
      case Bad => Rejected
      case Got(id, rest) =>
        if |rest| < 4 then ReadsPastEnd
        else ParseBody(absolute, version, if id <= MAX64 then id else 0, rest)
    else ParseBody(absolute, version, 0, bs)
  }

  function ParseBody(absolute: Text -> bool, version: U32, id: U64, bs: Bytes): Outcome {
    match BodyBytes().dec(bs)
    case Bad => Rejected
    case Got(b, rest) => if Small(b) then Checked(absolute, Built(version, id, b), rest) else Rejected
  }

  /** What the reader makes of a message. */
  function Parse(absolute: Text -> bool, bs: Bytes): Outcome {
    if bs == [] || |bs| > MAX_MESSAGE then Rejected
    else match Prelude().dec(bs)
      case Bad => Rejected
      case Got(head, rest) => if head.1 <= MAX32 then ParseRest(absolute, head.1, rest) else Rejected
  }

  // ---- the laws ----

  lemma PathsLawful()
    ensures Lawful(PathText()) && Lawful(PathList())
  {
    TextLawful(MAX_CHARS);
    NumberLawful(4);
    OnlyLawful(Number(4), AtMost(MAX_SOURCES));
    ListLawful(Only(Number(4), AtMost(MAX_SOURCES)), PathText());
  }

  lemma BodyLawful()
    ensures Lawful(BodyBytes()) && Lawful(IdBytes()) && Lawful(Prelude())
  {
    NumberLawful(1);
    NumberLawful(4);
    NumberLawful(8);
    PathsLawful();
    OnlyLawful(Number(1), IsZero());
    OnlyLawful(Number(4), IsMagic());
    PairLawful(Number(1), Only(Number(1), IsZero()));
    PairLawful(Number(1), Pair(Number(1), Only(Number(1), IsZero())));
    PairLawful(Number(1), Pair(Number(1), Pair(Number(1), Only(Number(1), IsZero()))));
    PairLawful(PathList(), PathText());
    PairLawful(TagBytes(), Pair(PathList(), PathText()));
    PairLawful(Number(8), BodyBytes());
    PairLawful(Only(Number(4), IsMagic()), Number(4));
  }

  lemma TagsWritten(r: Request)
    ensures TagBytes().enc(BodyOf(r).0) == [r.action, r.layout, r.operation, 0]
  {
    OneByte(r.action);
    OneByte(r.layout);
    OneByte(r.operation);
    OneByte(0);
    hide Little;
  }

  lemma PathsWritten(ps: seq<Text>)
    ensures PathList().enc(ps) == Little(|ps|, 4) + EncMany(PathText(), ps)
  {
    hide PathText, Little, EncMany;
  }

  lemma BodyWritten(b: Body)
    ensures BodyBytes().enc(b) == TagBytes().enc(b.0) + (PathList().enc(b.1.0) + PathText().enc(b.1.1))
  {
    hide TagBytes, PathList, PathText;
  }

  lemma PreludeWritten(version: nat)
    ensures Prelude().enc((MAGIC, version)) == Little(MAGIC, 4) + Little(version, 4)
    ensures Number(8).enc(version) == Little(version, 8)
  {
    hide Little;
  }

  /** The message as the codecs write it. */
  lemma MessageForm(r: Request)
    ensures Message(r) == Prelude().enc((MAGIC, r.version)) + Behind(r)
    ensures r.version == 3 ==> Behind(r) == Number(8).enc(r.id) + BodyBytes().enc(BodyOf(r))
    ensures r.version != 3 ==> Behind(r) == BodyBytes().enc(BodyOf(r))
    ensures |BodyBytes().enc(BodyOf(r))| >= 4
  {
    hide TagBytes, PathList, PathText, BodyBytes, Little, Prelude, Number, EncMany;
    TagsWritten(r);
    PathsWritten(r.sources);
    BodyWritten(BodyOf(r));
    PreludeWritten(r.version);
    PreludeWritten(r.id);
    var id := if r.version == 3 then Little(r.id, 8) else [];
    var tags, paths, last := [r.action, r.layout, r.operation, 0],
        Little(|r.sources|, 4) + EncMany(PathText(), r.sources), PathText().enc(r.destination);
    assert Behind(r) == id + (tags + (paths + last));
    assert Message(r) == Little(MAGIC, 4) + Little(r.version, 4) + Behind(r);
  }

  /** Everything behind the version. */
  function Behind(r: Request): Bytes {
    (if r.version == 3 then Little(r.id, 8) else [])
    + [r.action, r.layout, r.operation, 0]
    + Little(|r.sources|, 4) + EncMany(PathText(), r.sources) + PathText().enc(r.destination)
  }

  lemma BodyFits(absolute: Text -> bool, r: Request)
    requires Encodable(absolute, r)
    ensures BodyBytes().ok(BodyOf(r)) && Prelude().ok((MAGIC, r.version)) && Number(8).ok(r.id)
  {
    hide Message, Valid;
    Spans();
    TagsFit(r);
    assert PathText().ok(r.destination);
    PathsFit(r.sources);
    hide TagBytes, PathList, PathText;
  }

  lemma TagsFit(r: Request)
    ensures TagBytes().ok(BodyOf(r).0)
  {
    Spans();
  }

  lemma PathsFit(ps: seq<Text>)
    requires |ps| <= MAX_SOURCES && forall i :: 0 <= i < |ps| ==> |ps[i]| <= MAX_CHARS
    ensures PathList().ok(ps)
  {
    Spans();
    assert forall i :: 0 <= i < |ps| ==> PathText().ok(ps[i]);
    hide PathText;
  }

  lemma BodyParses(absolute: Text -> bool, r: Request)
    requires Valid(absolute, r) && BodyBytes().ok(BodyOf(r))
    ensures ParseBody(absolute, r.version, r.id, BodyBytes().enc(BodyOf(r))) == Accepted(r)
  {
    BodyLawful();
    hide BodyBytes, Lawful, Valid;
    Undone(BodyBytes(), BodyOf(r), []);
    assert BodyBytes().enc(BodyOf(r)) + [] == BodyBytes().enc(BodyOf(r));
  }

  lemma RestParses(absolute: Text -> bool, r: Request)
    requires Encodable(absolute, r)
    ensures ParseRest(absolute, r.version, Behind(r)) == Accepted(r)
  {
    hide BodyBytes, Prelude, Message, Behind, Number, Lawful, Valid, ParseBody, Encodable, BodyOf;
    EncodableParts(absolute, r);
    MessageForm(r);
    BodyFits(absolute, r);
    BodyParses(absolute, r);
    NumberLawful(8);
    NoId(r);
    if r.version == 3 { Undone(Number(8), r.id, BodyBytes().enc(BodyOf(r))); }
  }

  lemma EncodableParts(absolute: Text -> bool, r: Request)
    requires Encodable(absolute, r)
    ensures Valid(absolute, r) && (r.version == 3 || (r.version == 2 && r.id == 0)) && |Message(r)| <= MAX_MESSAGE
  {
    hide Message;
  }

  lemma NoId(r: Request)
    ensures |Behind(r)| >= 4
  {
    hide EncMany, PathText;
  }

  /** Decoding an encoded request gives that request. */
  lemma DecodesEncoded(absolute: Text -> bool, r: Request)
    requires Encodable(absolute, r)
    ensures Parse(absolute, Message(r)) == Accepted(r)
  {
    hide BodyBytes, Prelude, Message, Behind, Number, Lawful, Valid, ParseRest, Encodable, BodyOf;
    EncodableParts(absolute, r);
    MessageForm(r);
    BodyFits(absolute, r);
    MessageLong(r);
    RestParses(absolute, r);
    BodyLawful();
    Undone(Prelude(), (MAGIC, r.version), Behind(r));
  }

  lemma MessageLong(r: Request)
    ensures |Message(r)| >= 12
  {
    hide EncMany, PathText;
  }

  lemma BodyDecoded(absolute: Text -> bool, version: U32, id: U64, bs: Bytes)
    requires ParseBody(absolute, version, id, bs).Accepted?
    ensures var r := ParseBody(absolute, version, id, bs).request;
      && Valid(absolute, r) && r.version == version && r.id == id
      && bs == BodyBytes().enc(BodyOf(r)) && BodyBytes().ok(BodyOf(r))
  {
    BodyLawful();
    hide BodyBytes, Valid;
    var g := BodyBytes().dec(bs);
    var r := ParseBody(absolute, version, id, bs).request;
    assert BodyBytes().ok(g.value) && bs == BodyBytes().enc(g.value) + g.rest;
    assert g.rest == [] && BodyBytes().enc(g.value) + [] == BodyBytes().enc(g.value);
    BodyTags(g.value);
    assert BodyOf(r) == g.value;
  }

  lemma BodyTags(b: Body)
    requires BodyBytes().ok(b)
    ensures b.0.1.1.1 == 0
  {
  }

  lemma BodyBounds(r: Request)
    requires BodyBytes().ok(BodyOf(r))
    ensures |r.sources| <= MAX_SOURCES && |r.destination| <= MAX_CHARS
    ensures forall i :: 0 <= i < |r.sources| ==> |r.sources[i]| <= MAX_CHARS
  {
    assert PathList().ok(r.sources) && PathText().ok(r.destination);
    assert forall i :: 0 <= i < |r.sources| ==> PathText().ok(r.sources[i]);
  }

  /** Whatever is accepted was the encoding of the result. */
  lemma AcceptsOnlyEncodings(absolute: Text -> bool, bs: Bytes)
    requires Parse(absolute, bs).Accepted?
    ensures Encodable(absolute, Parse(absolute, bs).request) && bs == Message(Parse(absolute, bs).request)
  {
    BodyLawful();
    NumberLawful(8);
    var head := Prelude().dec(bs);
    var version, r := head.value.1, Parse(absolute, bs).request;
    assert Prelude().ok(head.value) && bs == Prelude().enc(head.value) + head.rest && head.value.0 == MAGIC;
    if version == 3 {
      var id := Number(8).dec(head.rest);
      assert Number(8).ok(id.value) && head.rest == Number(8).enc(id.value) + id.rest;
      Spans();
      BodyDecoded(absolute, version, id.value, id.rest);
    } else {
      BodyDecoded(absolute, version, 0, head.rest);
    }
    MessageForm(r);
    BodyBounds(r);
  }

  /** A message is accepted as a request exactly when it is that request's encoding. */
  lemma AcceptedIffEncoding(absolute: Text -> bool, bs: Bytes, r: Request)
    ensures Parse(absolute, bs) == Accepted(r) <==> Encodable(absolute, r) && bs == Message(r)
  {
    if Parse(absolute, bs) == Accepted(r) { AcceptsOnlyEncodings(absolute, bs); }
    if Encodable(absolute, r) { DecodesEncoded(absolute, r); }
  }

  /** The reader runs off the end exactly on messages that open as version 3 and have the id
      but fewer than the four bytes behind it: the length check before the id is not
      repeated after it. */
  lemma ReadsPastEndIff(absolute: Text -> bool, bs: Bytes)
    ensures Parse(absolute, bs) == ReadsPastEnd
            <==> 16 <= |bs| < 20 && bs[..8] == Little(MAGIC, 4) + Little(3, 4)
  {
    PreludeReads(bs);
    if |bs| >= 8 {
      Opens(bs);
      IdReads(bs[8..]);
      hide Prelude, BodyBytes, Number, Little, Value;
      BodyNeverPast(absolute, bs);
    }
  }

  lemma BodyNeverPast(absolute: Text -> bool, bs: Bytes)
    ensures forall version, id, rest :: ParseBody(absolute, version, id, rest) != ReadsPastEnd
  {
    hide BodyBytes, Valid;
  }

  lemma IdReads(bs: Bytes)
    ensures Number(8).dec(bs) == if |bs| < 8 then Bad else Got(Value(bs[..8]), bs[8..])
  {
  }

  /** The first eight bytes are those of magic and version 3 just when they read as such. */
  lemma Opens(bs: Bytes)
    requires |bs| >= 8
    ensures Value(bs[..4]) == MAGIC && Value(bs[4..8]) == 3 <==> bs[..8] == Little(MAGIC, 4) + Little(3, 4)
    ensures Value(bs[4..8]) <= MAX32
  {
    Spans();
    ValueLittle(bs[..4]);
    ValueLittle(bs[4..8]);
    LittleValue(MAGIC, 4);
    LittleValue(3, 4);
    hide Little, Value, Span;
    assert bs[..8] == bs[..4] + bs[4..8];
    if bs[..8] == Little(MAGIC, 4) + Little(3, 4) {
      assert bs[..4] == bs[..8][..4] == Little(MAGIC, 4) && bs[4..8] == bs[..8][4..] == Little(3, 4);
    }
  }

  lemma PreludeReads(bs: Bytes)
    ensures Prelude().dec(bs)
            == if |bs| >= 8 && Value(bs[..4]) == MAGIC then Got((MAGIC, Value(bs[4..8])), bs[8..]) else Bad
  {
    if |bs| >= 8 {
      assert bs[4..][..4] == bs[4..8] && bs[4..][4..] == bs[8..];
    }
  }

  /** Such a message: magic, version 3, an id, and nothing more. */
  lemma PastEndExample(absolute: Text -> bool)
    ensures Parse(absolute, Little(MAGIC, 4) + Little(3, 4) + Little(1, 8)) == ReadsPastEnd
  {
    var bs := Little(MAGIC, 4) + Little(3, 4) + Little(1, 8);
    assert bs[..8] == Little(MAGIC, 4) + Little(3, 4);
    ReadsPastEndIff(absolute, bs);
  }

  // ---- the writer ----

  method AppendU32(out: Bytes, value: U32) returns (r: Bytes)
    ensures r == out + Little(value, 4)
  {
    FourBytes(value);
    r := out + [value % 256];
    r := r + [value / 256 % 256];
    r := r + [value / 0x1_0000 % 256];
    r := r + [value / 0x100_0000 % 256];
  }

  method AppendU64(out: Bytes, value: U64) returns (r: Bytes)
    ensures r == out + Little(value, 8)
  {
    LowAndHigh(value);
    hide Little;
    var low, high := value % 0x1_0000_0000, value / 0x1_0000_0000;
    Together(out, Little(low, 4), Little(high, 4));
    r := AppendU32(out, low);
    r := AppendU32(r, high);
  }

  lemma Together(a: Bytes, b: Bytes, c: Bytes)
    ensures a + b + c == a + (b + c)
  {
  }

  /** A text and its units, two bytes each. */
  method AppendPath(out: Bytes, text: Text) returns (ok: bool, r: Bytes)
    ensures ok <==> |text| <= MAX_CHARS && |out + PathText().enc(text)| <= MAX_MESSAGE
    ensures |text| <= MAX_CHARS ==> r == out + PathText().enc(text)
  {
    hide Little, EncMany, Number, TextOf;
    if |text| > MAX_CHARS { return false, out; }
    r := AppendU32(out, |text|);
    TextWritten(MAX_CHARS, text);
    EncNone(Number(2));
    for i := 0 to |text|
      invariant r == out + Little(|text|, 4) + EncMany<nat>(Number(2), text[..i])
    {
      EncSnoc<nat>(Number(2), text, i);
      TwoBytes(text[i]);
      r := r + [text[i] % 256, text[i] / 256];
    }
    assert text[..|text|] == text;
    ok := |r| <= MAX_MESSAGE;
  }

  lemma EncNone<T>(c: Codec<T>)
    ensures EncMany(c, []) == []
  {
  }

  /** The writer: it writes exactly the encodable requests, as their message. */
  method Serialize(absolute: Text -> bool, r: Request) returns (result: Option<Bytes>)
    ensures result.Some? <==> Encodable(absolute, r)
    ensures result.Some? ==> result.value == Message(r)
  {
    hide PathText, Little, EncMany, Valid;
    if !Valid(absolute, r) || |r.sources| > MAX_SOURCES { return None; }
    var out := AppendU32([], MAGIC);
    out := AppendU32(out, r.version);
    if r.version == 3 { out := AppendU64(out, r.id); }
    out := out + [r.action, r.layout, r.operation] + [0];
    out := AppendU32(out, |r.sources|);
    ghost var head := out;
    var paths := PathText();
    EncNone(paths);
    for i := 0 to |r.sources|
      invariant out == head + EncMany(paths, r.sources[..i])
      invariant forall j :: 0 <= j < i ==> |r.sources[j]| <= MAX_CHARS
    {
      var ok;
      EncSnoc(paths, r.sources, i);
      PrefixLength(head, paths, r.sources, i, paths.enc(r.destination));
      ok, out := AppendPath(out, r.sources[i]);
      if !ok { return None; }
    }
    assert r.sources[..|r.sources|] == r.sources;
    var ok;
    ok, out := AppendPath(out, r.destination);
    if !ok { return None; }
    result := Some(out);
  }

  /** Text written so far is no longer than the whole. */
  lemma PrefixLength(head: Bytes, c: Codec<Text>, xs: seq<Text>, i: nat, last: Bytes)
    requires i < |xs|
    ensures |head + EncMany(c, xs[..i]) + c.enc(xs[i])| <= |head + EncMany(c, xs) + last|
  {
    EncSnoc(c, xs, i);
    EncConcat(c, xs[..i + 1], xs[i + 1..]);
    assert xs == xs[..i + 1] + xs[i + 1..];
  }

  // ---- the reader ----

  method ReadU32(bytes: Bytes, offset: nat) returns (ok: bool, value: nat, next: nat)
    requires offset <= |bytes|
    ensures ok <==> offset + 4 <= |bytes|
    ensures ok ==> next == offset + 4 && Number(4).dec(bytes[offset..]) == Got(value, bytes[next..]) && value <= MAX32
    ensures !ok ==> Number(4).dec(bytes[offset..]) == Bad
  {
    if offset + 4 > |bytes| { return false, 0, offset; }
    ghost var four := bytes[offset..offset + 4];
    assert bytes[offset..][..4] == four && bytes[offset..][4..] == bytes[offset + 4..];
    FourValue(four);
    value := Four(bytes[offset], bytes[offset + 1], bytes[offset + 2], bytes[offset + 3]);
    ok, next := true, offset + 4;
  }

  method ReadU64(bytes: Bytes, offset: nat) returns (ok: bool, value: nat, next: nat)
    requires offset <= |bytes|
    ensures ok <==> offset + 8 <= |bytes|
    ensures ok ==> next == offset + 8 && Number(8).dec(bytes[offset..]) == Got(value, bytes[next..]) && value <= MAX64
    ensures !ok ==> Number(8).dec(bytes[offset..]) == Bad
  {
    hide Value;
    var low, high;
    value := 0;
    ok, low, next := ReadU32(bytes, offset);
    if !ok { return; }
    ok, high, next := ReadU32(bytes, next);
    if !ok { return; }
    value := low + 0x1_0000_0000 * high;
    ValueSplit(bytes[offset..offset + 4], bytes[offset + 4..offset + 8]);
    assert bytes[offset..][..8] == bytes[offset..offset + 4] + bytes[offset + 4..offset + 8];
    assert bytes[offset..][..4] == bytes[offset..offset + 4] && bytes[offset + 4..][..4] == bytes[offset + 4..offset + 8];
    assert bytes[offset..][8..] == bytes[offset + 8..];
  }

  method ReadPath(bytes: Bytes, offset: nat) returns (ok: bool, text: Text, next: nat)
    requires offset <= |bytes|
    ensures ok <==> PathText().dec(bytes[offset..]).Got?
    ensures ok ==> offset <= next <= |bytes| && PathText().dec(bytes[offset..]) == Got(text, bytes[next..])
  {
    hide Number, DecMany, TextOf, Units;
    text, next := [], offset;
    var chars;
    TextRead(MAX_CHARS, bytes[offset..]);
    ok, chars, next := ReadU32(bytes, offset);
    if !ok || chars > MAX_CHARS { return false, [], offset; }
    ghost var behind := bytes[next..];
    ManyFixed(2, chars, behind);
    if next + chars * 2 > |bytes| { return false, [], offset; }
    var start := next;
    ManyStep<nat>(Number(2), [], chars, behind);
    for i := 0 to chars
      invariant start + 2 * chars <= |bytes| && |text| == i
      invariant Ahead<nat>(text, DecMany(Number(2), chars - i, bytes[start + 2 * i..])) == DecMany(Number(2), chars, behind)
    {
      var at := start + 2 * i;
      ManyStep<nat>(Number(2), text, chars - i, bytes[at..]);
      UnitRead(bytes[at..]);
      assert bytes[at..][2..] == bytes[at + 2..];
      text := text + [Two(bytes[at], bytes[at + 1])];
    }
    next := start + chars * 2;
    ManyStep<nat>(Number(2), text, 0, bytes[next..]);
    UnitsSame(text);
    ok := true;
  }

  lemma TagsRead(bs: Bytes)
    ensures TagBytes().dec(bs)
            == if |bs| >= 4 && bs[3] == 0 then Got((bs[0], (bs[1], (bs[2], 0))), bs[4..]) else Bad
  {
    ByteRead(bs);
    if |bs| >= 1 { ByteRead(bs[1..]); }
    if |bs| >= 2 {
      assert bs[1..][1..] == bs[2..];
      ByteRead(bs[2..]);
    }
    if |bs| >= 3 {
      assert bs[2..][1..] == bs[3..];
      ByteRead(bs[3..]);
    }
    if |bs| >= 4 { assert bs[3..][1..] == bs[4..]; }
    hide Number;
  }

  lemma ListRead(bs: Bytes)
    ensures PathList().dec(bs)
            == match Number(4).dec(bs)
               case Bad => Bad
               case Got(n, rest) => if n > MAX_SOURCES then Bad else DecMany(PathText(), n, rest)
  {
    hide DecMany, PathText, Number;
    assert PathList().dec(bs) == TakeList(Only(Number(4), AtMost(MAX_SOURCES)), PathText(), bs);
  }

  lemma BodyRead(bs: Bytes)
    ensures BodyBytes().dec(bs)
            == match TagBytes().dec(bs)
               case Bad => Bad
               case Got(tags, rest) => WithPaths(tags, PathList().dec(rest))
  {
    hide TagBytes, PathList, PathText;
  }

  function WithPaths(tags: Tags, g: Got<seq<Text>>): Got<Body> {
    match g
    case Bad => Bad
    case Got(paths, rest) =>
      match PathText().dec(rest)
      case Bad => Bad
      case Got(last, end) => Got((tags, (paths, last)), end)
  }

  /** The source list: a count, then that many paths. */
  method ReadSources(bytes: Bytes, offset: nat) returns (ok: bool, sources: seq<Text>, next: nat)
    requires offset <= |bytes|
    ensures ok <==> PathList().dec(bytes[offset..]).Got?
    ensures ok ==> offset <= next <= |bytes| && PathList().dec(bytes[offset..]) == Got(sources, bytes[next..])
  {
    hide PathText, PathList, DecMany;
    sources := [];
    var count;
    ListRead(bytes[offset..]);
    ok, count, next := ReadU32(bytes, offset);
    if !ok || count > MAX_SOURCES { return false, [], offset; }
    var paths := PathText();
    ghost var behind := bytes[next..];
    ManyStep(paths, [], count, behind);
    for i := 0 to count
      invariant offset <= next <= |bytes|
      invariant Ahead(sources, DecMany(paths, count - i, bytes[next..])) == DecMany(paths, count, behind)
    {
      var source, at := [], next;
      ManyStep(paths, sources, count - i, bytes[at..]);
      ok, source, next := ReadPath(bytes, at);
      if !ok { return false, [], offset; }
      sources := sources + [source];
    }
    ManyStep(paths, sources, 0, bytes[next..]);
    ok := true;
  }

  /** The reader. Where it would index bytes that are not there, it says so. */
  method Deserialize(absolute: Text -> bool, bytes: Bytes) returns (o: Outcome)
    ensures o == Parse(absolute, bytes)
  {
    hide Valid, PathText, PathList, TagBytes, BodyBytes, Prelude, Number;
    if bytes == [] || |bytes| > MAX_MESSAGE { return Rejected; }
    assert bytes[0..] == bytes;
    HeadRead(bytes);
    var ok, magic, version, offset := true, 0, 0, 0;
    ok, magic, offset := ReadU32(bytes, 0);
    if !ok || magic != MAGIC { return Rejected; }
    ok, version, offset := ReadU32(bytes, offset);
    if !ok || offset + 4 > |bytes| { return Rejected; }
    var id := 0;
    if version == 3 {
      ok, id, offset := ReadU64(bytes, offset);
      if !ok { return Rejected; }
    }
    if offset + 4 > |bytes| { return ReadsPastEnd; }
    var tags := offset;
    TagsRead(bytes[tags..]);
    BodyRead(bytes[tags..]);
    offset := offset + 4;
    assert bytes[tags..][4..] == bytes[offset..];
    if bytes[tags + 3] != 0 { return Rejected; }
    var sources, destination := [], [];
    ok, sources, offset := ReadSources(bytes, offset);
    if !ok { return Rejected; }
    ok, destination, offset := ReadPath(bytes, offset);
    if !ok || offset != |bytes| { return Rejected; }
    var r := Request(version, id, bytes[tags], bytes[tags + 1], bytes[tags + 2], sources, destination);
    if !Valid(absolute, r) { return Rejected; }
    o := Accepted(r);
  }

  lemma HeadRead(bs: Bytes)
    ensures Prelude().dec(bs)
            == match Number(4).dec(bs)
               case Bad => Bad
               case Got(magic, rest) =>
                 if magic != MAGIC then Bad
                 else match Number(4).dec(rest) case Bad => Bad case Got(version, end) => Got((magic, version), end)
  {
    hide Number;
  }
}
