/** The home directory of `crates/config/src/home_dir.rs`: lexical normalization as a stack machine
    over path components, and the refusal of a home at or above the workspace root. */
module HomeDir {
  import opened Common

  datatype Component = CurDir | ParentDir | Normal(name: string)

  /** A path as its components; a relative path without any is the empty path. */
  datatype Path = Path(absolute: bool, comps: seq<Component>)

  datatype Error = EmptyPath | AtOrAboveRoot

  const DEFAULT_HOME := Path(false, [Normal(".heph")])

  /** `Path::join`: an absolute right side replaces the left. */
  function Join(root: Path, rel: Path): Path {
    if rel.absolute then rel else Path(root.absolute, root.comps + rel.comps)
  }

  /** `std::path::absolute` in working directory `cwd`: the empty path has no absolute form. */
  function Absolute(cwd: seq<Component>, p: Path): Result<seq<Component>, Error> {
    if p.absolute then Ok(p.comps)
    else if p.comps == [] then Err(EmptyPath)
    else Ok(cwd + p.comps)
  }

  function Push(stack: seq<string>, c: Component): seq<string> {
    match c
    case CurDir => stack
    case ParentDir => if stack == [] then [] else stack[..|stack| - 1]
    case Normal(n) => stack + [n]
  }

  /** The directory reached from `stack` by following `cs`; `..` at the root stays there. */
  function Walk(stack: seq<string>, cs: seq<Component>): seq<string> {
    if cs == [] then stack else Push(Walk(stack, cs[..|cs| - 1]), cs[|cs| - 1])
  }

  function Normalize(cwd: seq<Component>, p: Path): Result<seq<string>, Error> {
    match Absolute(cwd, p)
    case Err(e) => Err(e)
    case Ok(cs) => Ok(Walk([], cs))
  }

  /** The loop of `normalize`. */
  method NormalizeComponents(cs: seq<Component>) returns (out: seq<string>)
    ensures out == Walk([], cs)
  {
    out := [];
    for i := 0 to |cs|
      invariant out == Walk([], cs[..i])
    {
      assert cs[..i + 1][..i] == cs[..i];
      match cs[i] {
        case CurDir =>
        case ParentDir =>
          if |out| > 0 {
            out := out[..|out| - 1];
          }
        case Normal(n) =>
          out := out + [n];
      }
    }
    assert cs[..|cs|] == cs;
  }

  lemma {:induction false} WalkConcat(stack: seq<string>, xs: seq<Component>, ys: seq<Component>)
    ensures Walk(stack, xs + ys) == Walk(Walk(stack, xs), ys)
    decreases |ys|
  {
    if ys == [] {
      assert xs + ys == xs;
    } else {
      WalkConcat(stack, xs, ys[..|ys| - 1]);
      assert (xs + ys)[..|xs + ys| - 1] == xs + ys[..|ys| - 1];
    }
  }

  /** A normalized path, read back as a path: absolute, with no dot components. */
  function AsPath(names: seq<string>): Path {
    Path(true, seq(|names|, i requires 0 <= i < |names| => Normal(names[i])))
  }

  lemma {:induction false} WalkNormal(stack: seq<string>, names: seq<string>)
    ensures Walk(stack, AsPath(names).comps) == stack + names
    decreases |names|
  {
    if names != [] {
      var front := names[..|names| - 1];
      WalkNormal(stack, front);
      assert AsPath(names).comps[..|names| - 1] == AsPath(front).comps;
      assert stack + front + [names[|names| - 1]] == stack + names;
    }
  }

  /** Normalizing is idempotent. */
  lemma NormalizeIdempotent(cwd: seq<Component>, p: Path)
    requires Normalize(cwd, p).Ok?
    ensures Normalize(cwd, AsPath(Normalize(cwd, p).value)) == Normalize(cwd, p)
  {
    var names := Normalize(cwd, p).value;
    WalkNormal([], names);
    assert [] + names == names;
  }

  /** Normalizing a join is continuing from the normalized root. */
  lemma NormalizeJoin(cwd: seq<Component>, root: Path, rel: Path)
    requires !rel.absolute && Normalize(cwd, root).Ok?
    ensures Normalize(cwd, Join(root, rel)) == Ok(Walk(Normalize(cwd, root).value, rel.comps))
  {
    var base := Absolute(cwd, root).value;
    WalkConcat([], base, rel.comps);
    assert cwd + (root.comps + rel.comps) == (cwd + root.comps) + rel.comps;
  }

  // ---------------------------------------------------------------- relative paths in normal form

  /** What a component sequence does to any directory: climb, then descend. */
  datatype Move = Move(ups: nat, names: seq<string>)

  function Reduce(cs: seq<Component>): Move {
    if cs == [] then Move(0, [])
    else
      var m := Reduce(cs[..|cs| - 1]);
      match cs[|cs| - 1]
      case CurDir => m
      case ParentDir => if m.names == [] then Move(m.ups + 1, []) else Move(m.ups, m.names[..|m.names| - 1])
      case Normal(n) => Move(m.ups, m.names + [n])
  }

  function Climb(stack: seq<string>, n: nat): seq<string> {
    if n <= |stack| then stack[..|stack| - n] else []
  }

  /** Every relative path acts as some number of `..` followed by plain names, from any directory. */
  lemma {:induction false} WalkIsMove(stack: seq<string>, cs: seq<Component>)
    ensures Walk(stack, cs) == Climb(stack, Reduce(cs).ups) + Reduce(cs).names
    decreases |cs|
  {
    if cs != [] {
      WalkIsMove(stack, cs[..|cs| - 1]);
      var m := Reduce(cs[..|cs| - 1]);
      var base := Climb(stack, m.ups);
      if cs[|cs| - 1].ParentDir? && m.names != [] {
        assert (base + m.names)[..|base + m.names| - 1] == base + m.names[..|m.names| - 1];
      }
    }
  }

  /** The laws of following a path, which fix it: a name descends, `..` undoes a name and stays at the
      root, `.` does nothing, and a longer path is followed piece by piece. */
  lemma WalkLaws(stack: seq<string>, n: string, xs: seq<Component>, ys: seq<Component>)
    ensures Walk(stack, []) == stack
    ensures Walk(stack, [Normal(n)]) == stack + [n]
    ensures Walk(stack + [n], [ParentDir]) == stack && Walk([], [ParentDir]) == []
    ensures Walk(stack, [CurDir]) == stack
    ensures Walk(stack, xs + ys) == Walk(Walk(stack, xs), ys)
  {
    WalkOne(stack, Normal(n));
    WalkOne(stack + [n], ParentDir);
    WalkOne([], ParentDir);
    WalkOne(stack, CurDir);
    WalkConcat(stack, xs, ys);
    assert (stack + [n])[..|stack|] == stack;
  }

  lemma WalkOne(stack: seq<string>, c: Component)
    ensures Walk(stack, [c]) == Push(stack, c)
  {
    assert [c][..0] == [];
    assert Walk(stack, []) == stack;
  }

  /** Normal forms: an absolute path is its own, a relative one continues from the working directory,
      and only the empty path has none. */
  lemma NormalForm(cwd: seq<Component>, p: Path)
    ensures Normalize(cwd, p)
         == if p.absolute then Ok(Reduce(p.comps).names)
            else if p.comps == [] then Err(EmptyPath)
            else Ok(Climb(Reduce(cwd).names, Reduce(p.comps).ups) + Reduce(p.comps).names)
  {
    FromTheTop(p.comps);
    FromTheTop(cwd);
    WalkConcat([], cwd, p.comps);
    WalkIsMove(Walk([], cwd), p.comps);
  }

  lemma FromTheTop(cs: seq<Component>)
    ensures Walk([], cs) == Reduce(cs).names
  {
    WalkIsMove([], cs);
    assert Climb([], Reduce(cs).ups) == [];
    assert [] + Reduce(cs).names == Reduce(cs).names;
  }

  // ---------------------------------------------------------------- resolving the home

  /** `HomeDir::resolve`. */
  function Resolve(cwd: seq<Component>, root: Path, configured: Option<Path>): Result<seq<string>, Error> {
    var rel := if configured.Some? then configured.value else DEFAULT_HOME;
    match Normalize(cwd, Join(root, rel))
    case Err(e) => Err(e)
    case Ok(home) =>
      match Normalize(cwd, root)
      case Err(e) => Err(e)
      case Ok(r) => if home <= r then Err(AtOrAboveRoot) else Ok(home)
  }

  /** Off the chain: the two paths part at some component. */
  ghost predicate Diverge(a: seq<string>, b: seq<string>) {
    exists k :: 0 <= k < |a| && k < |b| && a[k] != b[k]
  }

  /** For a configured relative path the answer can be read off its normal form: it is refused
      exactly when, after climbing, it only walks back down the root's own chain. */
  lemma RelativeHome(cwd: seq<Component>, root: Path, rel: Path)
    requires !rel.absolute && Normalize(cwd, root).Ok?
    ensures var r, m := Normalize(cwd, root).value, Reduce(rel.comps);
            var base := Climb(r, m.ups);
            Resolve(cwd, root, Some(rel))
            == if m.names <= r[|base|..] then Err(AtOrAboveRoot) else Ok(base + m.names)
  {
    var r, m := Normalize(cwd, root).value, Reduce(rel.comps);
    var base := Climb(r, m.ups);
    NormalizeJoin(cwd, root, rel);
    WalkIsMove(r, rel.comps);
    assert r == base + r[|base|..];
    if base + m.names <= r {
      assert m.names == r[|base|..|base| + |m.names|];
      assert m.names == r[|base|..][..|m.names|];
    }
    if m.names <= r[|base|..] {
      assert (base + m.names) == r[..|base| + |m.names|];
    }
  }

  /** An absolute home is used as written: refused exactly when its normal form is the root or above
      it, and nothing else about the root matters. */
  lemma AbsoluteHome(cwd: seq<Component>, root: Path, home: Path)
    requires home.absolute && Normalize(cwd, root).Ok?
    ensures var r, names := Normalize(cwd, root).value, Reduce(home.comps).names;
            Resolve(cwd, root, Some(home)) == if names <= r then Err(AtOrAboveRoot) else Ok(names)
  {
    NormalForm(cwd, home);
  }

  /** A root without a normal form gives no home. */
  lemma NoRootNoHome(cwd: seq<Component>, root: Path, configured: Option<Path>)
    requires !root.absolute && root.comps == []
    ensures Resolve(cwd, root, configured) == Err(EmptyPath)
  {
  }

  /** Where a configured path leads from the root's normal form. */
  function Target(r: seq<string>, home: Path): seq<string> {
    var m := Reduce(home.comps);
    if home.absolute then m.names else Climb(r, m.ups) + m.names
  }

  /** An accepted home is strictly below the root or off its ancestor chain; anything else is
      refused. */
  lemma ResolvedHome(cwd: seq<Component>, root: Path, configured: Option<Path>)
    requires Normalize(cwd, root).Ok?
    ensures var r := Normalize(cwd, root).value;
            var home := if configured.Some? then Target(r, configured.value) else r + [".heph"];
            Resolve(cwd, root, configured)
            == if r < home || Diverge(r, home) then Ok(home) else Err(AtOrAboveRoot)
  {
    var r := Normalize(cwd, root).value;
    if configured.None? {
      DefaultHome(cwd, root);
      PrefixTrichotomy(r, r + [".heph"]);
    } else {
      var home := configured.value;
      if home.absolute {
        NormalForm(cwd, home);
      } else {
        NormalizeJoin(cwd, root, home);
        WalkIsMove(r, home.comps);
      }
      PrefixTrichotomy(r, Target(r, home));
    }
  }

  lemma {:induction false} PrefixTrichotomy(a: seq<string>, b: seq<string>)
    ensures !(b <= a) <==> a < b || Diverge(a, b)
  {
    if !Diverge(a, b) {
      if |b| <= |a| {
        assert b == a[..|b|];
      } else {
        assert a == b[..|a|];
      }
    }
  }

  /** The default home always resolves, one level below the root. */
  lemma DefaultHome(cwd: seq<Component>, root: Path)
    requires Normalize(cwd, root).Ok?
    ensures Resolve(cwd, root, None) == Ok(Normalize(cwd, root).value + [".heph"])
  {
    NormalizeJoin(cwd, root, DEFAULT_HOME);
    var r := Normalize(cwd, root).value;
    assert DEFAULT_HOME.comps[..0] == [];
    assert Walk(r, DEFAULT_HOME.comps) == Push(Walk(r, []), Normal(".heph"));
  }
}
