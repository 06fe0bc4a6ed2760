/** Byte-level codecs built from smaller ones, with the two laws that make an encoding exact:
    decoding undoes encoding, and whatever is decoded was the encoding of the result. */
module Wire {
  import opened Sequences

  type Byte = b: nat | b < 256
  type Unit = u: nat | u < 0x1_0000
  type Bytes = seq<Byte>

  /** Text in 16-bit units, as paths and names are stored. */
  type Text = seq<Unit>

  const MAX16: nat := 0xFFFF
  const MAX32: nat := 0xFFFF_FFFF
  const MAX64: nat := 0xFFFF_FFFF_FFFF_FFFF

  /** What a decoder makes of some bytes: nothing, or a value and the bytes behind it. */
  datatype Got<+T> = Bad | Got(value: T, rest: Bytes)

  datatype Codec<!T> = Codec(ok: T -> bool, enc: T -> Bytes, dec: Bytes -> Got<T>)

  /** Decoding undoes encoding, whatever follows. */
  ghost predicate Undoes<T(!new)>(c: Codec<T>) {
    forall t, tail :: c.ok(t) ==> c.dec(c.enc(t) + tail) == Got(t, tail)
  }

  /** Whatever is decoded was the encoding of the result. */
  ghost predicate Exact<T(!new)>(c: Codec<T>) {
    forall bs :: c.dec(bs).Got? ==> c.ok(c.dec(bs).value) && bs == c.enc(c.dec(bs).value) + c.dec(bs).rest
  }

  ghost predicate Lawful<T(!new)>(c: Codec<T>) { Undoes(c) && Exact(c) }

  lemma Undone<T(!new)>(c: Codec<T>, t: T, tail: Bytes)
    requires Lawful(c) && c.ok(t)
    ensures c.dec(c.enc(t) + tail) == Got(t, tail)
  {
  }

  lemma Encoded<T(!new)>(c: Codec<T>, bs: Bytes)
    requires Lawful(c) && c.dec(bs).Got?
    ensures c.ok(c.dec(bs).value) && bs == c.enc(c.dec(bs).value) + c.dec(bs).rest
  {
  }

  /** An encoding determines its value. */
  lemma Unambiguous<T(!new)>(c: Codec<T>, a: T, b: T)
    requires Lawful(c) && c.ok(a) && c.ok(b) && c.enc(a) == c.enc(b)
    ensures a == b
  {
    assert c.dec(c.enc(a) + []) == Got(a, []) && c.dec(c.enc(b) + []) == Got(b, []);
  }

  // ---- numbers, least significant byte first ----

  function Little(v: nat, n: nat): (bs: Bytes)
    ensures |bs| == n
  {
    if n == 0 then [] else [v % 256] + Little(v / 256, n - 1)
  }

  function Value(bs: Bytes): nat {
    if bs == [] then 0 else bs[0] + 256 * Value(bs[1..])
  }

  function Span(n: nat): nat { if n == 0 then 1 else 256 * Span(n - 1) }

  lemma {:induction false} LittleValue(v: nat, n: nat)
    requires v < Span(n)
    ensures Value(Little(v, n)) == v
  {
    if n > 0 {
      LittleValue(v / 256, n - 1);
      assert Little(v, n)[1..] == Little(v / 256, n - 1);
    }
  }

  lemma {:induction false} ValueLittle(bs: Bytes)
    ensures Value(bs) < Span(|bs|) && Little(Value(bs), |bs|) == bs
  {
    if bs != [] {
      ValueLittle(bs[1..]);
      assert bs == [bs[0]] + bs[1..];
    }
  }

  function TakeNumber(n: nat, bs: Bytes): Got<nat> {
    if |bs| < n then Bad else Got(Value(bs[..n]), bs[n..])
  }

  /** Unsigned numbers of a fixed width, in bytes. */
  function Number(n: nat): Codec<nat> {
    Codec((v: nat) => v < Span(n), (v: nat) => Little(v, n), (bs: Bytes) => TakeNumber(n, bs))
  }

  lemma NumberLawful(n: nat)
    ensures Lawful(Number(n))
  {
    var c := Number(n);
    forall v: nat, tail: Bytes | c.ok(v)
      ensures c.dec(c.enc(v) + tail) == Got(v, tail)
    {
      LittleValue(v, n);
      assert (Little(v, n) + tail)[..n] == Little(v, n) && (Little(v, n) + tail)[n..] == tail;
    }
    forall bs: Bytes | c.dec(bs).Got?
      ensures c.ok(c.dec(bs).value) && bs == c.enc(c.dec(bs).value) + c.dec(bs).rest
    {
      ValueLittle(bs[..n]);
      assert bs == bs[..n] + bs[n..];
    }
  }

  lemma Spans()
    ensures Span(1) == 256 && Span(2) == MAX16 + 1 && Span(4) == MAX32 + 1 && Span(8) == MAX64 + 1
  {
    assert Span(2) == 256 * Span(1) && Span(3) == 256 * Span(2) && Span(4) == 256 * Span(3);
    assert Span(5) == 256 * Span(4) && Span(6) == 256 * Span(5) && Span(7) == 256 * Span(6) && Span(8) == 256 * Span(7);
  }

  // ---- building codecs ----

  /** One thing after another. */
  function Pair<A, B>(a: Codec<A>, b: Codec<B>): Codec<(A, B)> {
    Codec((p: (A, B)) => a.ok(p.0) && b.ok(p.1),
          (p: (A, B)) => a.enc(p.0) + b.enc(p.1),
          (bs: Bytes) => match a.dec(bs)
                         case Bad => Bad
                         case Got(x, rest) => (match b.dec(rest) case Bad => Bad case Got(y, end) => Got((x, y), end)))
  }

  lemma PairLawful<A(!new), B(!new)>(a: Codec<A>, b: Codec<B>)
    requires Lawful(a) && Lawful(b)
    ensures Lawful(Pair(a, b))
  {
    var c := Pair(a, b);
    forall p: (A, B), tail: Bytes | c.ok(p)
      ensures c.dec(c.enc(p) + tail) == Got(p, tail)
    {
      assert c.enc(p) + tail == a.enc(p.0) + (b.enc(p.1) + tail);
      assert a.dec(a.enc(p.0) + (b.enc(p.1) + tail)) == Got(p.0, b.enc(p.1) + tail);
    }
    forall bs: Bytes | c.dec(bs).Got?
      ensures c.ok(c.dec(bs).value) && bs == c.enc(c.dec(bs).value) + c.dec(bs).rest
    {
      var x := a.dec(bs);
      assert b.dec(x.rest).Got?;
      assert bs == a.enc(x.value) + (b.enc(b.dec(x.rest).value) + b.dec(x.rest).rest);
    }
  }

  /** Only some of the values. */
  function Only<T>(c: Codec<T>, p: T -> bool): Codec<T> {
    Codec((t: T) => c.ok(t) && p(t), c.enc,
          (bs: Bytes) => match c.dec(bs) case Bad => Bad case Got(t, rest) => if p(t) then Got(t, rest) else Bad)
  }

  lemma OnlyLawful<T(!new)>(c: Codec<T>, p: T -> bool)
    requires Lawful(c)
    ensures Lawful(Only(c, p))
  {
    var d := Only(c, p);
    forall t: T, tail: Bytes | d.ok(t)
      ensures d.dec(d.enc(t) + tail) == Got(t, tail)
    {
      assert c.dec(c.enc(t) + tail) == Got(t, tail);
    }
  }

  /** The same bytes read as something else. */
  function Seen<A, B>(c: Codec<A>, to: A -> B, from: B -> A, ok: B -> bool): Codec<B> {
    Codec((b: B) => ok(b), (b: B) => c.enc(from(b)),
          (bs: Bytes) => match c.dec(bs) case Bad => Bad case Got(a, rest) => Got(to(a), rest))
  }

  ghost predicate Converts<A(!new), B(!new)>(c: Codec<A>, to: A -> B, from: B -> A, ok: B -> bool) {
    && (forall a :: c.ok(a) ==> from(to(a)) == a && ok(to(a)))
    && (forall b :: ok(b) ==> c.ok(from(b)) && to(from(b)) == b)
  }

  lemma SeenLawful<A(!new), B(!new)>(c: Codec<A>, to: A -> B, from: B -> A, ok: B -> bool)
    requires Lawful(c) && Converts(c, to, from, ok)
    ensures Lawful(Seen(c, to, from, ok))
  {
    var d := Seen(c, to, from, ok);
    forall b: B, tail: Bytes | d.ok(b)
      ensures d.dec(d.enc(b) + tail) == Got(b, tail)
    {
      assert c.dec(c.enc(from(b)) + tail) == Got(from(b), tail);
    }
    forall bs: Bytes | d.dec(bs).Got?
      ensures d.ok(d.dec(bs).value) && bs == d.enc(d.dec(bs).value) + d.dec(bs).rest
    {
      var a := c.dec(bs).value;
      assert c.ok(a) && from(to(a)) == a;
    }
  }

  /** The same bytes read as values in a normal form, the ones decoding gives. */
  function Normal<A, B(==)>(c: Codec<A>, to: A -> B, from: B -> A): Codec<B> { Seen(c, to, from, NormalForm(c, to, from)) }

  function NormalForm<A, B(==)>(c: Codec<A>, to: A -> B, from: B -> A): B -> bool {
    (b: B) => c.ok(from(b)) && to(from(b)) == b
  }

  lemma NormalLawful<A(!new), B(!new)>(c: Codec<A>, to: A -> B, from: B -> A)
    requires Lawful(c) && forall a :: c.ok(a) ==> from(to(a)) == a
    ensures Lawful(Normal(c, to, from))
  {
    SeenLawful(c, to, from, NormalForm(c, to, from));
  }

  /** A flag byte, and the thing itself if the flag is set. */
  function EncMaybe<T>(c: Codec<T>, o: Option<T>): Bytes {
    match o case None => [0] case Some(t) => [1] + c.enc(t)
  }

  function DecMaybe<T>(c: Codec<T>, bs: Bytes): Got<Option<T>> {
    if bs == [] || bs[0] > 1 then Bad
    else if bs[0] == 0 then Got(None, bs[1..])
    else match c.dec(bs[1..]) case Bad => Bad case Got(t, rest) => Got(Some(t), rest)
  }

  function Maybe<T>(c: Codec<T>): Codec<Option<T>> {
    Codec((o: Option<T>) => o.Some? ==> c.ok(o.value), (o: Option<T>) => EncMaybe(c, o), (bs: Bytes) => DecMaybe(c, bs))
  }

  lemma MaybeLawful<T(!new)>(c: Codec<T>)
    requires Lawful(c)
    ensures Lawful(Maybe(c))
  {
    var d := Maybe(c);
    forall o: Option<T>, tail: Bytes | d.ok(o)
      ensures d.dec(d.enc(o) + tail) == Got(o, tail)
    {
      match o {
        case None => assert ([0] + tail)[1..] == tail;
        case Some(t) =>
          assert ([1] + c.enc(t) + tail)[1..] == c.enc(t) + tail;
          Undone(c, t, tail);
      }
    }
    forall bs: Bytes | d.dec(bs).Got?
      ensures d.ok(d.dec(bs).value) && bs == d.enc(d.dec(bs).value) + d.dec(bs).rest
    {
      assert bs == [bs[0]] + bs[1..];
      if bs[0] == 1 { Encoded(c, bs[1..]); }
    }
  }

  /** A fixed number of bytes as they are. */
  function TakeFixed(n: nat, bs: Bytes): Got<Bytes> { if |bs| < n then Bad else Got(bs[..n], bs[n..]) }

  function Fixed(n: nat): Codec<Bytes> {
    Codec((b: Bytes) => |b| == n, (b: Bytes) => b, (bs: Bytes) => TakeFixed(n, bs))
  }

  lemma FixedLawful(n: nat)
    ensures Lawful(Fixed(n))
  {
    var c := Fixed(n);
    forall b: Bytes, tail: Bytes | c.ok(b)
      ensures c.dec(c.enc(b) + tail) == Got(b, tail)
    {
      assert (b + tail)[..n] == b && (b + tail)[n..] == tail;
    }
  }

  /** Nothing on the wire: only one value is meant. */
  function Nothing<T(==)>(t: T): Codec<T> {
    Codec((x: T) => x == t, (x: T) => [], (bs: Bytes) => Got(t, bs))
  }

  lemma NothingLawful<T(!new)>(t: T)
    ensures Lawful(Nothing(t))
  {
    var c := Nothing(t);
    assert forall tail: Bytes :: [] + tail == tail;
  }

  // ---- counted lists ----

  function EncMany<T>(c: Codec<T>, xs: seq<T>): Bytes {
    if xs == [] then [] else c.enc(xs[0]) + EncMany(c, xs[1..])
  }

  function DecMany<T>(c: Codec<T>, n: nat, bs: Bytes): Got<seq<T>> {
    if n == 0 then Got([], bs)
    else match c.dec(bs)
      case Bad => Bad
      case Got(x, rest) => Ahead([x], DecMany(c, n - 1, rest))
  }

  /** Items read before, ahead of those still to come. */
  function Ahead<T>(xs: seq<T>, g: Got<seq<T>>): Got<seq<T>> {
    match g case Bad => Bad case Got(ys, rest) => Got(xs + ys, rest)
  }

  lemma {:induction false} ManyUndone<T(!new)>(c: Codec<T>, xs: seq<T>, tail: Bytes)
    requires Lawful(c) && forall i :: 0 <= i < |xs| ==> c.ok(xs[i])
    ensures DecMany(c, |xs|, EncMany(c, xs) + tail) == Got(xs, tail)
  {
    if xs == [] {
      assert [] + tail == tail;
    } else {
      assert EncMany(c, xs) + tail == c.enc(xs[0]) + (EncMany(c, xs[1..]) + tail);
      assert c.dec(c.enc(xs[0]) + (EncMany(c, xs[1..]) + tail)) == Got(xs[0], EncMany(c, xs[1..]) + tail);
      ManyUndone(c, xs[1..], tail);
      assert xs == [xs[0]] + xs[1..];
    }
  }

  lemma {:induction false} ManyExact<T(!new)>(c: Codec<T>, n: nat, bs: Bytes)
    requires Lawful(c) && DecMany(c, n, bs).Got?
    ensures var g := DecMany(c, n, bs);
      && |g.value| == n && (forall i :: 0 <= i < |g.value| ==> c.ok(g.value[i])) && bs == EncMany(c, g.value) + g.rest
    decreases n
  {
    if n > 0 {
      var first := c.dec(bs);
      ManyExact(c, n - 1, first.rest);
      var g := DecMany(c, n, bs);
      assert g.value[1..] == DecMany(c, n - 1, first.rest).value;
      assert c.ok(first.value) && bs == c.enc(first.value) + first.rest;
    }
  }

  /** One item of a list read in a loop. */
  lemma ManyStep<T>(c: Codec<T>, xs: seq<T>, n: nat, bs: Bytes)
    ensures n > 0 && c.dec(bs).Bad? ==> Ahead(xs, DecMany(c, n, bs)) == Bad
    ensures n > 0 && c.dec(bs).Got? ==>
      Ahead(xs, DecMany(c, n, bs)) == Ahead(xs + [c.dec(bs).value], DecMany(c, n - 1, c.dec(bs).rest))
    ensures Ahead(xs, DecMany(c, 0, bs)) == Got(xs, bs)
    ensures Ahead([], DecMany(c, n, bs)) == DecMany(c, n, bs)
  {
    assert xs + [] == xs;
    var g := DecMany(c, n, bs);
    if g.Got? { assert [] + g.value == g.value; }
    if n > 0 && c.dec(bs).Got? {
      var h := DecMany(c, n - 1, c.dec(bs).rest);
      if h.Got? { assert xs + ([c.dec(bs).value] + h.value) == xs + [c.dec(bs).value] + h.value; }
    }
  }

  /** Items written in a loop. */
  lemma EncSnoc<T>(c: Codec<T>, xs: seq<T>, i: nat)
    requires i < |xs|
    ensures EncMany(c, xs[..i + 1]) == EncMany(c, xs[..i]) + c.enc(xs[i])
  {
    EncConcat(c, xs[..i], [xs[i]]);
    assert xs[..i + 1] == xs[..i] + [xs[i]] && [xs[i]][1..] == [];
  }

  lemma {:induction false} EncConcat<T>(c: Codec<T>, a: seq<T>, b: seq<T>)
    ensures EncMany(c, a + b) == EncMany(c, a) + EncMany(c, b)
  {
    if a == [] {
      assert a + b == b;
    } else {
      assert (a + b)[1..] == a[1..] + b;
      EncConcat(c, a[1..], b);
    }
  }

  /** Numbers in a row need exactly their bytes. */
  lemma {:induction false} ManyFixed(width: nat, n: nat, bs: Bytes)
    requires width > 0
    ensures DecMany(Number(width), n, bs).Got? <==> width * n <= |bs|
  {
    if n > 0 && |bs| >= width { ManyFixed(width, n - 1, bs[width..]); }
  }

  function TakeList<T>(count: Codec<nat>, c: Codec<T>, bs: Bytes): Got<seq<T>> {
    match count.dec(bs) case Bad => Bad case Got(n, rest) => DecMany(c, n, rest)
  }

  /** A count and that many items. */
  function ListOf<T>(count: Codec<nat>, c: Codec<T>): Codec<seq<T>> {
    Codec((xs: seq<T>) => count.ok(|xs|) && forall i :: 0 <= i < |xs| ==> c.ok(xs[i]),
          (xs: seq<T>) => count.enc(|xs|) + EncMany(c, xs),
          (bs: Bytes) => TakeList(count, c, bs))
  }

  lemma ListLawful<T(!new)>(count: Codec<nat>, c: Codec<T>)
    requires Lawful(count) && Lawful(c)
    ensures Lawful(ListOf(count, c))
  {
    var d := ListOf(count, c);
    forall xs: seq<T>, tail: Bytes | d.ok(xs)
      ensures d.dec(d.enc(xs) + tail) == Got(xs, tail)
    {
      assert d.enc(xs) + tail == count.enc(|xs|) + (EncMany(c, xs) + tail);
      assert count.dec(count.enc(|xs|) + (EncMany(c, xs) + tail)) == Got(|xs|, EncMany(c, xs) + tail);
      ManyUndone(c, xs, tail);
    }
    forall bs: Bytes | d.dec(bs).Got?
      ensures d.ok(d.dec(bs).value) && bs == d.enc(d.dec(bs).value) + d.dec(bs).rest
    {
      var n := count.dec(bs);
      ManyExact(c, n.value, n.rest);
      assert bs == count.enc(n.value) + (EncMany(c, d.dec(bs).value) + d.dec(bs).rest);
    }
  }

  // ---- text ----

  function AtMost(limit: nat): nat -> bool { (n: nat) => n <= limit }

  function NoLonger(limit: nat): Text -> bool { (t: Text) => |t| <= limit && |t| <= MAX32 }

  /** Numbers below 2^16 as text units. */
  function Units(xs: seq<nat>): Text {
    seq(|xs|, i requires 0 <= i < |xs| => if xs[i] <= MAX16 then xs[i] else 0)
  }

  function AsUnits(): seq<nat> -> Text { (xs: seq<nat>) => Units(xs) }

  function AsNumbers(): Text -> seq<nat> { (t: Text) => t }

  function UnitList(limit: nat): Codec<seq<nat>> { ListOf(Only(Number(4), AtMost(limit)), Number(2)) }

  /** Counted 16-bit text no longer than a limit. */
  function TextOf(limit: nat): Codec<Text> { Seen(UnitList(limit), AsUnits(), AsNumbers(), NoLonger(limit)) }

  lemma TextLawful(limit: nat)
    ensures Lawful(TextOf(limit))
  {
    Spans();
    NumberLawful(4);
    NumberLawful(2);
    OnlyLawful(Number(4), AtMost(limit));
    ListLawful(Only(Number(4), AtMost(limit)), Number(2));
    var c := UnitList(limit);
    forall xs: seq<nat> | c.ok(xs)
      ensures AsNumbers()(AsUnits()(xs)) == xs && NoLonger(limit)(AsUnits()(xs))
    {
      assert forall i :: 0 <= i < |xs| ==> Number(2).ok(xs[i]);
    }
    forall t: Text | NoLonger(limit)(t)
      ensures c.ok(AsNumbers()(t)) && AsUnits()(AsNumbers()(t)) == t
    {
      assert Units(t) == t;
    }
    SeenLawful(c, AsUnits(), AsNumbers(), NoLonger(limit));
  }

  /** Text as it is written: its length, then its units. */
  lemma TextWritten(limit: nat, t: Text)
    ensures TextOf(limit).enc(t) == Little(|t|, 4) + EncMany<nat>(Number(2), t)
    ensures TextOf(limit).ok(t) <==> |t| <= limit && |t| <= MAX32
  {
    hide EncMany, Little;
    var c := UnitList(limit);
    assert TextOf(limit).enc(t) == c.enc(AsNumbers()(t));
    assert c.enc(t) == Only(Number(4), AtMost(limit)).enc(|t|) + EncMany<nat>(Number(2), t);
    assert Only(Number(4), AtMost(limit)).enc(|t|) == Little(|t|, 4);
  }

  function AsText(g: Got<seq<nat>>): Got<Text> { match g case Bad => Bad case Got(xs, rest) => Got(Units(xs), rest) }

  lemma TextRead(limit: nat, bs: Bytes)
    ensures TextOf(limit).dec(bs)
            == match Number(4).dec(bs)
               case Bad => Bad
               case Got(n, rest) => if n > limit then Bad else AsText(DecMany(Number(2), n, rest))
  {
    hide DecMany, Units;
    var c := UnitList(limit);
    assert c.dec(bs) == TakeList(Only(Number(4), AtMost(limit)), Number(2), bs);
    hide Number;
  }

  /** Two and four bytes as a number. */
  function Two(a: nat, b: nat): nat { a + 256 * b }
  function Four(a: nat, b: nat, c: nat, d: nat): nat { a + 256 * b + 0x1_0000 * c + 0x100_0000 * d }

  lemma OneByte(b: Byte)
    ensures Little(b, 1) == [b]
  {
    assert Little(b / 256, 0) == [];
  }

  lemma TwoBytes(u: Unit)
    ensures Number(2).enc(u) == [u % 256, u / 256]
  {
    assert Little(u, 2) == [u % 256] + Little(u / 256, 1);
    OneByte(u / 256);
  }

  lemma FourBytes(v: nat)
    requires v <= MAX32
    ensures Little(v, 4) == [v % 256, v / 256 % 256, v / 0x1_0000 % 256, v / 0x100_0000 % 256]
  {
    var a := v / 256;
    var b := a / 256;
    var c := b / 256;
    assert b == v / 0x1_0000 && c == v / 0x100_0000;
    assert Little(c, 1) == [c % 256] + Little(c / 256, 0);
    assert Little(b, 2) == [b % 256] + Little(c, 1);
    assert Little(a, 3) == [a % 256] + Little(b, 2);
  }

  lemma UnitRead(bs: Bytes)
    requires |bs| >= 2
    ensures Number(2).dec(bs) == Got(Two(bs[0], bs[1]), bs[2..])
  {
    assert bs[..2][1..] == [bs[1]] && [bs[1]][1..] == [];
    assert Value([bs[1]]) == Two(bs[1], Value([]));
    assert Value(bs[..2]) == Two(bs[0], Value([bs[1]]));
  }

  lemma UnitsSame(t: Text)
    ensures Units(t) == t
  {
  }

  lemma ByteRead(bs: Bytes)
    ensures Number(1).dec(bs) == if bs == [] then Bad else Got(bs[0], bs[1..])
  {
    if bs != [] {
      assert bs[..1][1..] == [];
      assert Value(bs[..1]) == bs[0] + 256 * Value([]);
    }
  }

  lemma FourValue(b: Bytes)
    requires |b| == 4
    ensures Value(b) == Four(b[0], b[1], b[2], b[3])
  {
    assert b[3..][1..] == [] && b[2..][1..] == b[3..] && b[1..][1..] == b[2..];
    assert Value(b[3..]) == Two(b[3], 0);
    assert Value(b[2..]) == Two(b[2], Value(b[3..]));
    assert Value(b[1..]) == Two(b[1], Value(b[2..]));
    assert Value(b) == Two(b[0], Value(b[1..]));
  }

  lemma ValueSplit(a: Bytes, b: Bytes)
    requires |a| == 4
    ensures Value(a + b) == Value(a) + 0x1_0000_0000 * Value(b)
  {
    FourValue(a);
    var one := [a[3]] + b;
    var two := [a[2]] + one;
    var three := [a[1]] + two;
    assert one[1..] == b && two[1..] == one && three[1..] == two;
    assert a + b == [a[0]] + three && ([a[0]] + three)[1..] == three;
    assert Value(one) == Two(a[3], Value(b)) && Value(two) == Two(a[2], Value(one)) && Value(three) == Two(a[1], Value(two));
    assert Value(a + b) == Two(a[0], Value(three));
  }

  lemma LowAndHigh(v: nat)
    requires v <= MAX64
    ensures v / 0x1_0000_0000 <= MAX32
    ensures Little(v, 8) == Little(v % 0x1_0000_0000, 4) + Little(v / 0x1_0000_0000, 4)
  {
    var low, high := v % 0x1_0000_0000, v / 0x1_0000_0000;
    var a := v / 256;
    var b := a / 256;
    var c := b / 256;
    assert a == 0x100_0000 * high + low / 256;
    assert b == 0x1_0000 * high + low / 0x1_0000;
    assert c == 256 * high + low / 0x100_0000;
    assert c / 256 == high;
    FourBytes(low);
    assert Little(c, 5) == [c % 256] + Little(high, 4);
    assert Little(b, 6) == [b % 256] + Little(c, 5);
    assert Little(a, 7) == [a % 256] + Little(b, 6);
    assert Little(v, 8) == [v % 256] + Little(a, 7);
    LowBytes(low, high);
  }

  /** The high half does not reach into the low bytes. */
  lemma LowBytes(low: nat, high: nat)
    ensures (0x100_0000 * high + low / 256) % 256 == low / 256 % 256
    ensures (0x1_0000 * high + low / 0x1_0000) % 256 == low / 0x1_0000 % 256
    ensures (256 * high + low / 0x100_0000) % 256 == low / 0x100_0000 % 256
    ensures (0x1_0000_0000 * high + low) % 256 == low % 256
  {
    Multiples(0x1_0000 * high, low / 256);
    Multiples(0x100 * high, low / 0x1_0000);
    Multiples(high, low / 0x100_0000);
    Multiples(0x100_0000 * high, low);
  }

  lemma Multiples(h: nat, x: nat)
    ensures (256 * h + x) % 256 == x % 256
  {
  }
}
