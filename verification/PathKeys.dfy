/** Path keys: component strings with a case-policy tag, their order, and the prefix test. */
module PathKeys {

  const NUL := '\0'

  /** An ordinal comparison of two names, case-sensitive or not. */
  type Compare = (bool, string, string) -> int

  /** For each policy the comparison is a total preorder on names. */
  ghost predicate Ordinal(cmp: Compare) {
    && (forall s, a, b :: cmp(s, a, b) < 0 <==> cmp(s, b, a) > 0)
    && (forall s, a, b, c :: cmp(s, a, b) <= 0 && cmp(s, b, c) <= 0 ==> cmp(s, a, c) <= 0)
  }

  // ---- splitting raw keys ----

  /** The position of the first NUL, or the length. */
  function Cut(key: string): (n: nat)
    ensures n <= |key|
    ensures forall i :: 0 <= i < n ==> key[i] != NUL
    ensures n < |key| ==> key[n] == NUL
  {
    if key == "" || key[0] == NUL then 0 else 1 + Cut(key[1..])
  }

  function After(key: string): string {
    if Cut(key) == |key| then "" else key[Cut(key) + 1..]
  }

  /** The components of a raw key. */
  function Split(key: string): seq<string>
    decreases |key|
  {
    if key == "" then [] else [key[..Cut(key)]] + Split(After(key))
  }

  function Join(components: seq<string>): string {
    if components == [] then "" else components[0] + [NUL] + Join(components[1..])
  }

  predicate Plain(name: string) { NUL !in name }

  lemma CutPlain(name: string, rest: string)
    requires Plain(name)
    ensures Cut(name + [NUL] + rest) == |name|
  {
    var key := name + [NUL] + rest;
    assert key[|name|] == NUL;
    assert forall i :: 0 <= i < |name| ==> key[i] == name[i] && name[i] in name;
  }

  /** Splitting a built key recovers its component list. */
  lemma {:induction false} SplitJoin(components: seq<string>)
    requires forall c :: c in components ==> Plain(c)
    ensures Split(Join(components)) == components
  {
    if components != [] {
      var name, rest := components[0], Join(components[1..]);
      CutPlain(name, rest);
      var key := Join(components);
      assert key == name + [NUL] + rest;
      assert key[..|name|] == name && key[|name| + 1..] == rest;
      SplitJoin(components[1..]);
    }
  }

  // ---- the order ----

  function Component(cmp: Compare, a: string, b: string): int {
    if a == "" || b == "" then (if a == b then 0 else if a == "" then -1 else 1)
    else if a[0] != b[0] then (if a[0] < b[0] then -1 else 1)
    else cmp(a[0] == 'S', a[1..], b[1..])
  }

  predicate Less(cmp: Compare, l: seq<string>, r: seq<string>)
    decreases |l|
  {
    if l == [] || r == [] then l == [] && r != []
    else
      var c := Component(cmp, l[0], r[0]);
      if c != 0 then c < 0 else Less(cmp, l[1..], r[1..])
  }

  /** Componentwise equivalence of two lists of the same length. */
  ghost predicate Alike(cmp: Compare, l: seq<string>, r: seq<string>) {
    |l| == |r| && forall i :: 0 <= i < |l| ==> Component(cmp, l[i], r[i]) == 0
  }

  lemma ComponentOrder(cmp: Compare, a: string, b: string, c: string)
    requires Ordinal(cmp)
    ensures Component(cmp, a, a) == 0
    ensures Component(cmp, a, b) < 0 <==> Component(cmp, b, a) > 0
    ensures Component(cmp, a, b) <= 0 && Component(cmp, b, c) <= 0 ==> Component(cmp, a, c) <= 0
    ensures Component(cmp, a, b) < 0 && Component(cmp, b, c) <= 0 ==> Component(cmp, a, c) < 0
    ensures Component(cmp, a, b) <= 0 && Component(cmp, b, c) < 0 ==> Component(cmp, a, c) < 0
  {
    if a != "" && b != "" && c != "" && a[0] == b[0] == c[0] {
      var s, x, y, z := a[0] == 'S', a[1..], b[1..], c[1..];
      assert cmp(s, x, y) <= 0 && cmp(s, y, z) <= 0 ==> cmp(s, x, z) <= 0;
      assert cmp(s, y, z) <= 0 && cmp(s, z, x) <= 0 ==> cmp(s, y, x) <= 0;
      assert cmp(s, z, x) <= 0 && cmp(s, x, y) <= 0 ==> cmp(s, z, y) <= 0;
    }
    if a != "" { assert cmp(a[0] == 'S', a[1..], a[1..]) < 0 <==> cmp(a[0] == 'S', a[1..], a[1..]) > 0; }
  }

  /** Two keys are equivalent under the order exactly when they are alike componentwise. */
  lemma {:induction false} EqualIffAlike(cmp: Compare, l: seq<string>, r: seq<string>)
    requires Ordinal(cmp)
    ensures !Less(cmp, l, r) && !Less(cmp, r, l) <==> Alike(cmp, l, r)
    decreases |l|
  {
    if l != [] && r != [] {
      ComponentOrder(cmp, l[0], r[0], l[0]);
      EqualIffAlike(cmp, l[1..], r[1..]);
      if Alike(cmp, l, r) {
        assert forall i :: 0 <= i < |l[1..]| ==> l[1..][i] == l[i + 1] && r[1..][i] == r[i + 1];
      } else if Component(cmp, l[0], r[0]) == 0 && Alike(cmp, l[1..], r[1..]) {
        forall i | 0 <= i < |l|
          ensures Component(cmp, l[i], r[i]) == 0
        {
          if i > 0 { assert l[i] == l[1..][i - 1] && r[i] == r[1..][i - 1]; }
        }
      }
    }
  }

  lemma {:induction false} LessTransitive(cmp: Compare, a: seq<string>, b: seq<string>, c: seq<string>)
    requires Ordinal(cmp)
    ensures Less(cmp, a, b) && Less(cmp, b, c) ==> Less(cmp, a, c)
    ensures Less(cmp, a, b) && !Less(cmp, c, b) ==> Less(cmp, a, c)
    ensures !Less(cmp, b, a) && Less(cmp, b, c) ==> Less(cmp, a, c)
    decreases |a|
  {
    if a != [] && b != [] && c != [] {
      ComponentOrder(cmp, a[0], b[0], c[0]);
      ComponentOrder(cmp, b[0], c[0], a[0]);
      ComponentOrder(cmp, c[0], b[0], a[0]);
      ComponentOrder(cmp, b[0], a[0], c[0]);
      LessTransitive(cmp, a[1..], b[1..], c[1..]);
    }
  }

  /** The order is a strict weak order: what a sorted set needs to hold one key per class. */
  lemma StrictWeakOrder(cmp: Compare, a: seq<string>, b: seq<string>, c: seq<string>)
    requires Ordinal(cmp)
    ensures !Less(cmp, a, a)
    ensures Less(cmp, a, b) ==> !Less(cmp, b, a)
    ensures Less(cmp, a, b) && Less(cmp, b, c) ==> Less(cmp, a, c)
    ensures Alike(cmp, a, b) && Alike(cmp, b, c) ==> Alike(cmp, a, c)
    ensures Alike(cmp, a, b) ==> Alike(cmp, b, a)
    ensures Alike(cmp, a, b) ==> (Less(cmp, a, c) <==> Less(cmp, b, c)) && (Less(cmp, c, a) <==> Less(cmp, c, b))
  {
    LessTransitive(cmp, a, b, c);
    LessTransitive(cmp, b, a, c);
    LessTransitive(cmp, c, a, b);
    LessTransitive(cmp, c, b, a);
    LessTransitive(cmp, a, b, a);
    EqualIffAlike(cmp, a, b);
    EqualIffAlike(cmp, b, a);
    EqualIffAlike(cmp, b, c);
    EqualIffAlike(cmp, a, c);
    forall i | 0 <= i < |a|
      ensures Component(cmp, a[i], a[i]) == 0
    {
      ComponentOrder(cmp, a[i], a[i], a[i]);
    }
    EqualIffAlike(cmp, a, a);
    LessTransitive(cmp, a, c, b);
    LessTransitive(cmp, b, c, a);
  }

  // ---- the prefix test ----

  predicate Prefix(cmp: Compare, p: seq<string>, c: seq<string>) {
    p != [] && |p| <= |c| && forall i :: 0 <= i < |p| ==> Component(cmp, p[i], c[i]) == 0
  }

  /** The prefix test is a preorder on real keys, compatible with key equality. */
  lemma PrefixPreorder(cmp: Compare, a: seq<string>, b: seq<string>, c: seq<string>)
    requires Ordinal(cmp)
    ensures a != [] ==> Prefix(cmp, a, a)
    ensures Prefix(cmp, a, b) && Prefix(cmp, b, c) ==> Prefix(cmp, a, c)
    ensures Alike(cmp, a, b) ==> (Prefix(cmp, a, c) <==> Prefix(cmp, b, c)) && (Prefix(cmp, c, a) <==> Prefix(cmp, c, b))
  {
    forall i | 0 <= i < |a|
      ensures Component(cmp, a[i], a[i]) == 0
    {
      ComponentOrder(cmp, a[i], a[i], a[i]);
    }
    forall i | 0 <= i < |a| && i < |b| && i < |c|
      ensures Component(cmp, a[i], b[i]) == 0 && Component(cmp, b[i], c[i]) == 0 ==> Component(cmp, a[i], c[i]) == 0
      ensures Component(cmp, a[i], b[i]) == 0 ==> (Component(cmp, a[i], c[i]) == 0 <==> Component(cmp, b[i], c[i]) == 0)
      ensures Component(cmp, a[i], b[i]) == 0 ==> (Component(cmp, c[i], a[i]) == 0 <==> Component(cmp, c[i], b[i]) == 0)
    {
      SameClass(cmp, a[i], b[i], c[i]);
    }
  }

  lemma SameClass(cmp: Compare, a: string, b: string, c: string)
    requires Ordinal(cmp)
    ensures Component(cmp, a, b) == 0 <==> Component(cmp, b, a) == 0
    ensures Component(cmp, a, b) == 0 && Component(cmp, b, c) == 0 ==> Component(cmp, a, c) == 0
    ensures Component(cmp, a, b) == 0 ==> (Component(cmp, a, c) == 0 <==> Component(cmp, b, c) == 0)
    ensures Component(cmp, a, b) == 0 ==> (Component(cmp, c, a) == 0 <==> Component(cmp, c, b) == 0)
  {
    ComponentOrder(cmp, a, b, c);
    ComponentOrder(cmp, b, a, c);
    ComponentOrder(cmp, c, a, b);
    ComponentOrder(cmp, c, b, a);
    ComponentOrder(cmp, a, c, b);
    ComponentOrder(cmp, b, c, a);
  }

  /** Key equality is mutual prefix, except for two empty keys, which are equal although
      the prefix test rejects them. */
  lemma EqualIsMutualPrefix(cmp: Compare, a: seq<string>, b: seq<string>)
    requires Ordinal(cmp)
    ensures Alike(cmp, a, b) <==> (Prefix(cmp, a, b) && Prefix(cmp, b, a)) || (a == [] && b == [])
  {
    forall i | 0 <= i < |a| && i < |b|
      ensures Component(cmp, a[i], b[i]) == 0 <==> Component(cmp, b[i], a[i]) == 0
    {
      SameClass(cmp, a[i], b[i], a[i]);
    }
  }

  /** The empty key is equal to itself and not a prefix of itself. */
  lemma EmptyKeysExample(cmp: Compare)
    ensures Split("") == [] && Alike(cmp, [], []) && !Less(cmp, [], []) && !Prefix(cmp, [], [])
  {
  }

  /** The keys under a prefix form one contiguous interval of the order. */
  lemma {:induction false} PrefixInterval(cmp: Compare, p: seq<string>, a: seq<string>, b: seq<string>, c: seq<string>)
    requires Ordinal(cmp) && Prefix(cmp, p, a) && Prefix(cmp, p, c)
    requires !Less(cmp, b, a) && !Less(cmp, c, b)
    ensures Prefix(cmp, p, b)
    decreases |p|
  {
    assert b != [];
    SameClass(cmp, p[0], a[0], c[0]);
    ComponentOrder(cmp, a[0], b[0], c[0]);
    ComponentOrder(cmp, b[0], a[0], c[0]);
    ComponentOrder(cmp, b[0], c[0], a[0]);
    ComponentOrder(cmp, c[0], b[0], a[0]);
    assert Component(cmp, a[0], b[0]) == 0 && Component(cmp, b[0], c[0]) == 0;
    SameClass(cmp, p[0], a[0], b[0]);
    SameClass(cmp, a[0], b[0], p[0]);
    SameClass(cmp, b[0], a[0], p[0]);
    SameClass(cmp, c[0], b[0], p[0]);
    if |p| > 1 {
      assert forall i :: 0 <= i < |p[1..]| ==> p[1..][i] == p[i + 1] && a[1..][i] == a[i + 1] && c[1..][i] == c[i + 1];
      PrefixInterval(cmp, p[1..], a[1..], b[1..], c[1..]);
      forall i | 0 <= i < |p|
        ensures Component(cmp, p[i], b[i]) == 0
      {
        if i > 0 { assert p[i] == p[1..][i - 1] && b[i] == b[1..][i - 1]; }
      }
    }
  }

  // ---- the loops on raw keys ----

  method TakeComponent(key: string) returns (component: string, rest: string)
    ensures key != "" ==> Split(key) == [component] + Split(rest) && |rest| < |key|
  {
    var end := 0;
    while end < |key| && key[end] != NUL
      invariant end <= |key| && Cut(key) == end + Cut(key[end..])
    {
      end := end + 1;
    }
    component := key[..end];
    rest := if end == |key| then "" else key[end + 1..];
  }

  method PathKeyLess(cmp: Compare, left: string, right: string) returns (less: bool)
    ensures less == Less(cmp, Split(left), Split(right))
  {
    var l, r := left, right;
    while l != "" && r != ""
      invariant Less(cmp, Split(left), Split(right)) == Less(cmp, Split(l), Split(r))
      decreases |l|
    {
      var a, b;
      ghost var ls, rs := Split(l), Split(r);
      a, l := TakeComponent(l);
      b, r := TakeComponent(r);
      assert ls[0] == a && ls[1..] == Split(l) && rs[0] == b && rs[1..] == Split(r);
      var compared := Component(cmp, a, b);
      if compared != 0 { return compared < 0; }
    }
    less := l == "" && r != "";
  }

  method PathKeyEqual(cmp: Compare, left: string, right: string) returns (equal: bool)
    requires Ordinal(cmp)
    ensures equal <==> Alike(cmp, Split(left), Split(right))
  {
    var a := PathKeyLess(cmp, left, right);
    var b := PathKeyLess(cmp, right, left);
    EqualIffAlike(cmp, Split(left), Split(right));
    equal := !a && !b;
  }

  method PathKeyIsPrefix(cmp: Compare, prefix: string, candidate: string) returns (r: bool)
    ensures r == Prefix(cmp, Split(prefix), Split(candidate))
  {
    if prefix == "" || candidate == "" { return false; }
    var p, c := prefix, candidate;
    ghost var done := 0;
    ghost var ps, cs := Split(prefix), Split(candidate);
    while p != ""
      invariant done <= |ps| && done <= |cs| && ps[done..] == Split(p) && cs[done..] == Split(c)
      invariant forall i :: 0 <= i < done ==> Component(cmp, ps[i], cs[i]) == 0
      decreases |p|
    {
      if c == "" { return false; }
      var a, b;
      ghost var pt, ct := Split(p), Split(c);
      a, p := TakeComponent(p);
      b, c := TakeComponent(c);
      assert ps[done] == pt[0] == a && cs[done] == ct[0] == b;
      if Component(cmp, a, b) != 0 { return false; }
      assert ps[done + 1..] == pt[1..] && cs[done + 1..] == ct[1..];
      done := done + 1;
    }
    r := true;
  }

  // ---- building keys ----

  /** A normalised absolute path: its root and the names below it. */
  datatype Absolute = Absolute(root: string, unc: bool, names: seq<string>)

  /** A directory on the way down, as the policy cache knows it. */
  type Directory = seq<string>

  function DirectoryAt(p: Absolute, depth: nat): Directory
    requires depth <= |p.names|
  {
    [p.root] + p.names[..depth]
  }

  function Tag(sensitive: bool, name: string): string { [if sensitive then 'S' else 'I'] + name }

  /** Whether the cache holds the policy of every directory the key of `p` depends on. */
  predicate Covered(cache: map<Directory, bool>, p: Absolute) {
    && (!p.unc ==> DirectoryAt(p, 0) in cache)
    && forall d :: 1 <= d < |p.names| ==> DirectoryAt(p, d) in cache
  }

  /** The policy under which the name at this depth is compared. */
  function PolicyAt(cache: map<Directory, bool>, p: Absolute, depth: nat): bool
    requires depth < |p.names| && Covered(cache, p)
  {
    if depth == 0 && p.unc then false else cache[DirectoryAt(p, depth)]
  }

  function Components(cache: map<Directory, bool>, p: Absolute): seq<string>
    requires Covered(cache, p)
  {
    ["I" + p.root] + seq(|p.names|, i requires 0 <= i < |p.names| => Tag(PolicyAt(cache, p, i), p.names[i]))
  }

  /** Once covered, a key no longer depends on anything but the cache, which only grows. */
  lemma KeyStable(cache: map<Directory, bool>, later: map<Directory, bool>, p: Absolute)
    requires Covered(cache, p) && forall d :: d in cache ==> d in later && later[d] == cache[d]
    ensures Covered(later, p) && Components(later, p) == Components(cache, p)
  {
    assert Covered(later, p) by {
      forall d | 1 <= d < |p.names|
        ensures DirectoryAt(p, d) in later
      {
        assert DirectoryAt(p, d) in cache;
      }
    }
    forall i | 0 <= i < |p.names|
      ensures PolicyAt(later, p, i) == PolicyAt(cache, p, i)
    {
      if i > 0 { assert DirectoryAt(p, i) in cache; }
    }
  }

  lemma SiblingComponents(cache: map<Directory, bool>, p: Absolute, name: string)
    requires Covered(cache, p) && p.names != []
    ensures var n, q := |p.names| - 1, p.(names := p.names[..|p.names| - 1] + [name]);
      && Covered(cache, q)
      && Components(cache, q) == Components(cache, p)[n + 1 := Tag(PolicyAt(cache, p, n), name)]
  {
    var n := |p.names| - 1;
    var q := p.(names := p.names[..n] + [name]);
    assert forall d :: 0 <= d <= n ==> DirectoryAt(q, d) == DirectoryAt(p, d);
  }

  lemma TagsCompare(cmp: Compare, s: bool, a: string, b: string)
    ensures Component(cmp, Tag(s, a), Tag(s, b)) == cmp(s, a, b)
  {
    assert Tag(s, a)[1..] == a && Tag(s, b)[1..] == b;
  }

  /** Two names in one directory share a key exactly when that directory cannot tell them apart. */
  lemma SiblingsCollideIff(cmp: Compare, cache: map<Directory, bool>, p: Absolute, name: string)
    requires Ordinal(cmp) && Covered(cache, p) && p.names != []
    ensures var q := p.(names := p.names[..|p.names| - 1] + [name]);
      && Covered(cache, q)
      && (Alike(cmp, Components(cache, p), Components(cache, q)) <==>
            cmp(PolicyAt(cache, p, |p.names| - 1), p.names[|p.names| - 1], name) == 0)
  {
    var n, a := |p.names| - 1, Components(cache, p);
    SiblingComponents(cache, p, name);
    TagsCompare(cmp, PolicyAt(cache, p, n), p.names[n], name);
    forall i | 0 <= i < |a|
      ensures Component(cmp, a[i], a[i]) == 0
    {
      ComponentOrder(cmp, a[i], a[i], a[i]);
    }
    var b := a[n + 1 := Tag(PolicyAt(cache, p, n), name)];
    assert a[n + 1] == Tag(PolicyAt(cache, p, n), p.names[n]) && b[n + 1] == Tag(PolicyAt(cache, p, n), name);
    assert forall i :: 0 <= i <= n ==> b[i] == a[i];
  }

  /** A directory's key is a prefix of the key of everything below it. */
  lemma ParentIsPrefix(cmp: Compare, cache: map<Directory, bool>, p: Absolute, depth: nat)
    requires Ordinal(cmp) && Covered(cache, p) && depth <= |p.names|
    ensures var q := p.(names := p.names[..depth]);
      Covered(cache, q) && Prefix(cmp, Components(cache, q), Components(cache, p))
  {
    var q := p.(names := p.names[..depth]);
    assert forall d :: 0 <= d <= depth ==> DirectoryAt(q, d) == DirectoryAt(p, d) by {
      assert forall d :: 0 <= d <= depth ==> p.names[..depth][..d] == p.names[..d];
    }
    var a, b := Components(cache, q), Components(cache, p);
    forall i | 0 <= i < |a|
      ensures Component(cmp, a[i], b[i]) == 0
    {
      if i > 0 { assert PolicyAt(cache, q, i - 1) == PolicyAt(cache, p, i - 1); }
      ComponentOrder(cmp, a[i], a[i], a[i]);
      assert a[i] == b[i];
    }
  }

  /** What the disk answers about a directory's case policy; None when it does not exist. */
  datatype Answer = Unknown | Known(sensitive: bool)

  class PathKeyFactory {
    var directories: map<Directory, bool>

    constructor ()
      ensures directories == map[]
    {
      directories := map[];
    }

    /** The cached policy, or the disk's answer, remembered from now on. */
    method DirectoryPolicy(d: Directory, inherited: bool, disk: Directory -> Answer) returns (policy: bool)
      modifies this
      ensures d in directories && directories[d] == policy
      ensures directories == if d in old(directories) then old(directories) else old(directories)[d := policy]
      ensures d !in old(directories) ==> policy == match disk(d) { case Unknown => inherited case Known(s) => s }
    {
      if d in directories { return directories[d]; }
      policy := match disk(d) { case Unknown => inherited case Known(s) => s };
      directories := directories[d := policy];
    }

    /** The key of a path. Whatever the disk answers now or later, the key is the one the
        cache determines from here on; a covered path asks the disk nothing. */
    method Make(p: Absolute, disk: Directory -> Answer) returns (key: string)
      modifies this
      ensures Covered(directories, p) && key == Join(Components(directories, p))
      ensures forall d :: d in old(directories) ==> d in directories && directories[d] == old(directories)[d]
      ensures old(Covered(directories, p)) ==> directories == old(directories)
    {
      ghost var start := directories;
      ghost var covered := Covered(directories, p);
      ghost var parts := ["I" + p.root];
      key := "I" + p.root + [NUL];
      JoinOne("I" + p.root);
      var sensitive := false;
      if !p.unc { sensitive := DirectoryPolicy(DirectoryAt(p, 0), false, disk); }
      var i := 0;
      while i < |p.names|
        invariant i <= |p.names| && |parts| == i + 1 && parts[0] == "I" + p.root && key == Join(parts)
        invariant forall d :: d in start ==> d in directories && directories[d] == start[d]
        invariant covered ==> directories == start
        invariant !p.unc ==> DirectoryAt(p, 0) in directories
        invariant forall d :: 1 <= d <= i && d < |p.names| ==> DirectoryAt(p, d) in directories
        invariant i < |p.names| ==> sensitive == if i == 0 && p.unc then false else directories[DirectoryAt(p, i)]
        invariant forall d :: 0 <= d < i ==>
          parts[d + 1] == Tag(if d == 0 && p.unc then false else directories[DirectoryAt(p, d)], p.names[d])
      {
        JoinSnoc(parts, Tag(sensitive, p.names[i]));
        parts := parts + [Tag(sensitive, p.names[i])];
        key := key + [if sensitive then 'S' else 'I'] + p.names[i] + [NUL];
        i := i + 1;
        if i < |p.names| { sensitive := DirectoryPolicy(DirectoryAt(p, i), sensitive, disk); }
      }
      assert Components(directories, p) == parts;
    }
  }

  lemma JoinOne(c: string)
    ensures Join([c]) == c + [NUL]
  {
    assert [c][1..] == [] && c + [NUL] + "" == c + [NUL];
  }

  lemma {:induction false} JoinSnoc(parts: seq<string>, c: string)
    ensures Join(parts + [c]) == Join(parts) + c + [NUL]
  {
    if parts == [] {
      JoinOne(c);
      assert parts + [c] == [c];
    } else {
      assert (parts + [c])[1..] == parts[1..] + [c];
      JoinSnoc(parts[1..], c);
    }
  }

  // ---- keys up to equality ----

  /** The classes of a component list under any canonical naming of the equivalence. */
  function Classes(classOf: string -> string, l: seq<string>): seq<string> {
    seq(|l|, i requires 0 <= i < |l| => classOf(l[i]))
  }

  /** Under any such naming, key equality is equality of class lists and the prefix test is
      their prefix order: the view of keys the live plan takes. */
  lemma KeysAreClassLists(cmp: Compare, classOf: string -> string, a: seq<string>, b: seq<string>)
    requires Ordinal(cmp) && forall x, y :: classOf(x) == classOf(y) <==> Component(cmp, x, y) == 0
    ensures Alike(cmp, a, b) <==> Classes(classOf, a) == Classes(classOf, b)
    ensures Prefix(cmp, a, b) <==> a != [] && Classes(classOf, a) <= Classes(classOf, b)
  {
    var x, y := Classes(classOf, a), Classes(classOf, b);
    forall i | 0 <= i < |a| && i < |b|
      ensures Component(cmp, a[i], b[i]) == 0 <==> x[i] == y[i]
    {
    }
  }
}
