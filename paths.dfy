/** Unix paths as the Rust standard library reads them (`std::path::Path`):
    components, `join`, `starts_with`, `strip_prefix` and `parent`, plus the
    lexical resolution of ".." that the file system applies when a path with
    ".." is created. Paths are strings; '/' is the only separator. */
module Paths {
  import opened Base
  import opened Text

  datatype Component = RootDir | CurDir | ParentDir | Normal(name: string)

  /** The component a non-separator piece stands for; empty and "." pieces stand for none. */
  function PieceComponents(piece: string): (cs: seq<Component>)
    ensures |cs| <= 1
  {
    if piece == "" || piece == "." then []
    else if piece == ".." then [ParentDir]
    else [Normal(piece)]
  }

  /** The components of the pieces between separators: empty pieces (repeated
      or trailing separators) and "." pieces vanish. */
  function Normalise(pieces: seq<string>): (cs: seq<Component>)
    ensures forall i :: 0 <= i < |cs| ==> cs[i].ParentDir? || cs[i].Normal?
    decreases |pieces|
  {
    if pieces == [] then [] else PieceComponents(pieces[0]) + Normalise(pieces[1..])
  }

  lemma {:induction false} NormaliseAppend(xs: seq<string>, ys: seq<string>)
    ensures Normalise(xs + ys) == Normalise(xs) + Normalise(ys)
    decreases |xs|
  {
    if xs != [] {
      assert (xs + ys)[1..] == xs[1..] + ys;
      NormaliseAppend(xs[1..], ys);
    } else {
      assert xs + ys == ys;
    }
  }

  predicate IsAbsolute(p: string) { |p| > 0 && p[0] == '/' }

  /** What a path starts with before its pieces: the root for an absolute
      path, a "." kept only at the very start of a relative path. */
  function Lead(p: string): (cs: seq<Component>)
    ensures |cs| <= 1
  {
    if IsAbsolute(p) then [RootDir]
    else if Split(p, '/')[0] == "." then [CurDir]
    else []
  }

  /** `Path::components`. */
  function Components(p: string): (cs: seq<Component>)
    ensures (cs != [] && cs[0] == RootDir) <==> IsAbsolute(p)
    ensures forall i :: 1 <= i < |cs| ==> cs[i].Normal? || cs[i].ParentDir?
  {
    Lead(p) + Normalise(Split(p, '/'))
  }

  /** Two paths that start alike start with the same components. */
  lemma LeadAgrees(x: string, y: string, s: seq<string>, tx: seq<string>, ty: seq<string>)
    requires x != "" && y != "" && x[0] == y[0] && |s| >= 1
    requires Split(x, '/') == s + tx && Split(y, '/') == s + ty
    ensures Lead(x) == Lead(y)
  {
    assert Split(x, '/')[0] == s[0] == Split(y, '/')[0];
  }

  /** `base.join(p)`: an absolute `p` replaces the base; otherwise one
      separator is inserted unless the base is empty or already ends in one. */
  function PathJoin(base: string, p: string): (r: string)
    ensures IsAbsolute(p) ==> r == p
    ensures !IsAbsolute(p) ==> |base| + |p| <= |r| && r[..|base|] == base && r[|r| - |p|..] == p
  {
    if IsAbsolute(p) then p
    else if base == "" then p
    else if base[|base| - 1] == '/' then base + p
    else base + "/" + p
  }

  /** Two paths that share their first pieces share the components of those pieces. */
  lemma ComponentsOfShared(x: string, y: string, s: seq<string>, tx: seq<string>, ty: seq<string>)
    requires x != "" && y != "" && x[0] == y[0] && |s| >= 1
    requires Split(x, '/') == s + tx && Split(y, '/') == s + ty && Normalise(tx) == []
    ensures Components(y) == Components(x) + Normalise(ty)
  {
    LeadAgrees(x, y, s, tx, ty);
    NormaliseAppend(s, tx);
    NormaliseAppend(s, ty);
  }

  /** A separator and a relative path after a non-empty path append the
      components of the relative path. */
  lemma ComponentsAfterSeparator(base: string, p: string)
    requires base != ""
    ensures Components(base + ['/'] + p) == Components(base) + Normalise(Split(p, '/'))
  {
    var j := base + ['/'] + p;
    SplitConcat(base, p, '/');
    assert Split(base, '/') == Split(base, '/') + [];
    ComponentsOfShared(base, j, Split(base, '/'), [], Split(p, '/'));
  }

  /** The same when the base already ends in its separator. */
  lemma ComponentsAfterTrailingSeparator(b': string, p: string)
    ensures Components(b' + ['/'] + p) == Components(b' + ['/']) + Normalise(Split(p, '/'))
  {
    var base := b' + ['/'];
    var j := b' + ['/'] + p;
    assert base == b' + ['/'] + "";
    SplitConcat(b', "", '/');
    SplitConcat(b', p, '/');
    ComponentsOfShared(base, j, Split(b', '/'), Split("", '/'), Split(p, '/'));
  }

  /** Joining a relative path appends its components, except a leading ".". */
  lemma JoinComponents(base: string, p: string)
    requires base != "" && !IsAbsolute(p)
    ensures Components(PathJoin(base, p)) == Components(base) + Normalise(Split(p, '/'))
  {
    if base[|base| - 1] == '/' {
      var b' := base[..|base| - 1];
      assert base == b' + ['/'];
      ComponentsAfterTrailingSeparator(b', p);
    } else {
      ComponentsAfterSeparator(base, p);
    }
  }

  /** A plain file name: one normal component. */
  predicate PlainName(name: string)
  {
    name != "" && name != "." && name != ".." && '/' !in name
  }

  lemma PlainNameComponents(name: string)
    requires PlainName(name)
    ensures Normalise(Split(name, '/')) == [Normal(name)]
  {
    SplitWithoutSep(name, '/');
  }

  /** `Path::starts_with`: a component-wise prefix, so "/srv/up" does not
      start with "/srv/u". */
  predicate StartsWith(p: string, base: string)
    ensures StartsWith(p, base) && Components(base) != [] ==> (IsAbsolute(base) <==> IsAbsolute(p))
  {
    Components(base) <= Components(p)
  }

  /** The text of a sequence of components. */
  function Render(cs: seq<Component>): string
  {
    if cs != [] && cs[0] == RootDir then "/" + JoinNames(cs[1..]) else JoinNames(cs)
  }

  function Names(cs: seq<Component>): (names: seq<string>)
    ensures |names| == |cs|
  {
    seq(|cs|, i requires 0 <= i < |cs| => match cs[i]
      case RootDir => ""
      case CurDir => "."
      case ParentDir => ".."
      case Normal(n) => n)
  }

  function JoinNames(cs: seq<Component>): string
  {
    Join(Names(cs), '/')
  }

  /** `p.strip_prefix(base)`: the remaining components when `base` is a
      component-wise prefix. */
  function StripPrefix(p: string, base: string): (r: Option<seq<Component>>)
    ensures r.Some? <==> StartsWith(p, base)
    ensures r.Some? ==> Components(base) + r.value == Components(p)
  {
    StripComponents(Components(p), Components(base))
  }

  /** The components after a prefix, when it is one. */
  function StripComponents(cp: seq<Component>, cb: seq<Component>): (r: Option<seq<Component>>)
    ensures r.Some? <==> cb <= cp
    ensures r.Some? ==> cb + r.value == cp
  {
    if cb <= cp then Some(cp[|cb|..]) else None
  }

  /** `Path::parent` on components: none for the root or the empty path. */
  function Parent(cs: seq<Component>): (r: Option<seq<Component>>)
    ensures r.Some? ==> |r.value| + 1 == |cs| && r.value == cs[..|cs| - 1]
    ensures r.None? <==> cs == [] || cs == [RootDir]
  {
    if cs == [] || cs == [RootDir] then None else Some(cs[..|cs| - 1])
  }

  /** The directory a path names once ".." and "." are applied, without
      symbolic links: ".." removes the previous name and stops at the root. */
  function Resolve(cs: seq<Component>): (r: seq<Component>)
    ensures |r| <= |cs|
    ensures forall i :: 0 <= i < |r| ==> r[i] != CurDir
    ensures forall i :: 1 <= i < |r| ==> r[i] != RootDir
    decreases |cs|
  {
    if cs == [] then []
    else
      var r := Resolve(cs[..|cs| - 1]);
      match cs[|cs| - 1]
      case RootDir => [RootDir]
      case CurDir => r
      case ParentDir =>
        if r != [] && r[|r| - 1].Normal? then r[..|r| - 1]
        else if r == [RootDir] then r
        else r + [ParentDir]
      case Normal(n) => r + [Normal(n)]
  }

  /** A name at the end is kept as it is. */
  lemma ResolveThenName(cs: seq<Component>, name: string)
    ensures Resolve(cs + [Normal(name)]) == Resolve(cs) + [Normal(name)]
  {
    assert (cs + [Normal(name)])[..|cs|] == cs;
  }

  /** A ".." at the end removes a trailing name. */
  lemma ResolveThenUp(cs: seq<Component>)
    requires Resolve(cs) != [] && Resolve(cs)[|Resolve(cs)| - 1].Normal?
    ensures Resolve(cs + [ParentDir]) == Resolve(cs)[..|Resolve(cs)| - 1]
  {
    assert (cs + [ParentDir])[..|cs|] == cs;
  }

  /** Names never climb: resolving a path followed by names appends the names. */
  lemma {:induction false} ResolveNames(cs: seq<Component>, ns: seq<Component>)
    requires AllNames(ns)
    ensures Resolve(cs + ns) == Resolve(cs) + ns
    ensures Resolve(cs) <= Resolve(cs + ns)
    decreases |ns|
  {
    if ns == [] {
      assert cs + ns == cs;
    } else {
      var ns' := ns[..|ns| - 1];
      assert (cs + ns)[..|cs + ns| - 1] == cs + ns';
      ResolveNames(cs, ns');
    }
  }

  /** A relative path with no ".." component: joined under a base, it never
      leaves it. */
  predicate Confined(p: string)
  {
    !IsAbsolute(p) && ParentDir !in Normalise(Split(p, '/'))
  }

  /** The components of `base.join(dir).join(name)` for relative `dir` and `name`. */
  lemma JoinTwice(base: string, dir: string, name: string)
    requires base != "" && !IsAbsolute(dir) && !IsAbsolute(name)
    ensures Components(PathJoin(PathJoin(base, dir), name))
      == Components(base) + Normalise(Split(dir, '/')) + Normalise(Split(name, '/'))
  {
    JoinComponents(base, dir);
    var j := PathJoin(base, dir);
    assert j != "" by {
      if base[|base| - 1] == '/' { assert |j| >= |base|; } else { assert |j| > |base|; }
    }
    JoinComponents(j, name);
  }

  /** Components that are all names: resolving them never climbs. */
  predicate AllNames(cs: seq<Component>)
  {
    forall i :: 0 <= i < |cs| ==> cs[i].Normal?
  }

  lemma AllNamesConcat(d: seq<Component>, n: seq<Component>)
    requires AllNames(d) && AllNames(n)
    ensures AllNames(d + n)
  {
    forall i | 0 <= i < |d + n| ensures (d + n)[i].Normal? {
      if i < |d| { assert (d + n)[i] == d[i]; } else { assert (d + n)[i] == n[i - |d|]; }
    }
  }

  /** The components of a confined path are all names. */
  lemma ConfinedNames(p: string)
    requires Confined(p)
    ensures AllNames(Normalise(Split(p, '/')))
  {
    var ns := Normalise(Split(p, '/'));
    forall i | 0 <= i < |ns| ensures ns[i].Normal? {
      assert ns[i] in ns;
    }
  }

  /** Names added after a base, in two groups, keep the resolved base as a prefix. */
  lemma ResolveUnderNames(cb: seq<Component>, d: seq<Component>, n: seq<Component>, c: seq<Component>)
    requires AllNames(d) && AllNames(n) && c == cb + d + n
    ensures Resolve(cb) <= Resolve(c)
  {
    AllNamesConcat(d, n);
    assert cb + d + n == cb + (d + n);
    ResolveNames(cb, d + n);
  }

  /** Joining confined paths under a base stays under the resolved base. */
  lemma ConfinedJoinStaysInside(base: string, dir: string, name: string)
    requires base != "" && Confined(dir) && Confined(name)
    ensures Resolve(Components(base)) <= Resolve(Components(PathJoin(PathJoin(base, dir), name)))
  {
    JoinTwice(base, dir, name);
    ConfinedNames(dir);
    ConfinedNames(name);
    ResolveUnderNames(Components(base), Normalise(Split(dir, '/')), Normalise(Split(name, '/')),
      Components(PathJoin(PathJoin(base, dir), name)));
  }

  lemma EmptyComponents()
    ensures Components("") == []
  {
    assert Split("", '/') == [""];
  }

  /** A root followed by a plain name. */
  lemma RootName(name: string)
    requires PlainName(name)
    ensures Components("/" + name) == [RootDir, Normal(name)]
  {
    assert "/" + name == "" + ['/'] + name;
    SplitAppend("", name, '/');
    PlainNameComponents(name);
    SplitWithoutSep(name, '/');
    assert Split("/" + name, '/') == ["", name];
    assert Normalise(["", name]) == PieceComponents("") + Normalise([name]);
  }

  /** A plain name after a separator adds one normal component to a
      non-empty path. */
  lemma AppendName(q: string, name: string)
    requires q != "" && PlainName(name)
    ensures Components(q + "/" + name) == Components(q) + [Normal(name)]
  {
    PlainNameComponents(name);
    assert q + "/" + name == q + ['/'] + name;
    ComponentsAfterSeparator(q, name);
  }
}
