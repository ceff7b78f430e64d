/** Relative package rendering, `render_relative_pkg` of `src/commands/completion.rs`, against the
    resolver that reads it back, `join_rel_checked_pkg` of `crates/model/src/htpkg/pkg.rs`. */
module RelativePkg {
  import opened Common

  // ---------------------------------------------------------------- splitting and joining on `/`

  predicate NoSlash(s: string) { forall i :: 0 <= i < |s| ==> s[i] != '/' }

  /** `str::split('/')`: always at least one piece. */
  function Split(s: string): (r: seq<string>)
    ensures |r| >= 1
  {
    if s == "" then [""] else Extend(s[0], Split(s[1..]))
  }

  /** One more character in front: it starts a piece or lengthens the first. */
  function Extend(c: char, r: seq<string>): (e: seq<string>)
    requires |r| >= 1
    ensures |e| >= 1
  {
    if c == '/' then [""] + r else [[c] + r[0]] + r[1..]
  }

  lemma ExtendConcat(c: char, r: seq<string>, q: seq<string>)
    requires |r| >= 1
    ensures Extend(c, r + q) == Extend(c, r) + q
  {
    assert (r + q)[1..] == r[1..] + q;
  }

  function JoinSlash(cs: seq<string>): string {
    if cs == [] then "" else if |cs| == 1 then cs[0] else cs[0] + "/" + JoinSlash(cs[1..])
  }

  lemma {:induction false} SplitPlain(s: string)
    requires NoSlash(s)
    ensures Split(s) == [s]
  {
    if s != "" {
      SplitPlain(s[1..]);
      assert [s[0]] + s[1..] == s;
    }
  }

  /** A slash separates: the pieces of both sides, in order. */
  lemma {:induction false} SplitAtSlash(s: string, t: string)
    ensures Split(s + "/" + t) == Split(s) + Split(t)
    decreases |s|
  {
    var whole := s + "/" + t;
    if s == "" {
      assert whole[0] == '/' && whole[1..] == t;
    } else {
      assert whole[0] == s[0] && whole[1..] == s[1..] + "/" + t;
      SplitAtSlash(s[1..], t);
      ExtendConcat(s[0], Split(s[1..]), Split(t));
    }
  }

  lemma {:induction false} SplitJoined(cs: seq<string>)
    requires cs != [] && (forall i :: 0 <= i < |cs| ==> NoSlash(cs[i]))
    ensures Split(JoinSlash(cs)) == cs
    decreases |cs|
  {
    SplitPlain(cs[0]);
    if |cs| > 1 {
      SplitJoined(cs[1..]);
      SplitAtSlash(cs[0], JoinSlash(cs[1..]));
      assert cs == [cs[0]] + cs[1..];
    } else {
      assert cs == [cs[0]];
    }
  }

  lemma {:induction false} SplitHasNoSlash(s: string)
    ensures forall i :: 0 <= i < |Split(s)| ==> NoSlash(Split(s)[i])
  {
    if s != "" {
      SplitHasNoSlash(s[1..]);
    }
  }

  // ---------------------------------------------------------------- packages and walks

  function NonEmpty(cs: seq<string>): seq<string> {
    if cs == [] then [] else NonEmpty(cs[..|cs| - 1]) + if cs[|cs| - 1] == "" then [] else [cs[|cs| - 1]]
  }

  /** `split('/').filter(non-empty)`. */
  function Components(pkg: string): seq<string> { NonEmpty(Split(pkg)) }

  predicate Plain(c: string) { c != "." && c != ".." }

  /** No component is a dot or a double dot. */
  ghost predicate CleanPkg(pkg: string) {
    forall i :: 0 <= i < |Components(pkg)| ==> Plain(Components(pkg)[i])
  }

  /** The stack machine of `join_rel_checked`: `None` when a `..` would leave the workspace. */
  function Walk(stack: seq<string>, cs: seq<string>): Option<seq<string>> {
    if cs == [] then Some(stack)
    else
      var s := Walk(stack, cs[..|cs| - 1]);
      var c := cs[|cs| - 1];
      if s.None? || c == "" || c == "." then s
      else if c == ".." then if s.value == [] then None else Some(s.value[..|s.value| - 1])
      else Some(s.value + [c])
  }

  lemma {:induction false} WalkConcat(stack: seq<string>, xs: seq<string>, ys: seq<string>)
    ensures Walk(stack, xs + ys) == var s := Walk(stack, xs); if s.None? then None else Walk(s.value, ys)
    decreases |ys|
  {
    if ys == [] {
      assert xs + ys == xs;
    } else {
      WalkConcat(stack, xs, ys[..|ys| - 1]);
      assert (xs + ys)[..|xs + ys| - 1] == xs + ys[..|ys| - 1];
    }
  }

  /** The laws of following a reference, which fix it: a name descends, `..` undoes a name and fails at
      the root, an empty piece or `.` does nothing; `WalkConcat` composes them. */
  lemma WalkLaws(stack: seq<string>, n: string)
    requires n != "" && n != "." && n != ".."
    ensures Walk(stack, []) == Some(stack)
    ensures Walk(stack, [n]) == Some(stack + [n])
    ensures Walk(stack + [n], [".."]) == Some(stack) && Walk([], [".."]) == None
    ensures Walk(stack, [""]) == Some(stack) && Walk(stack, ["."]) == Some(stack)
  {
    WalkOne(stack, n);
    WalkOne(stack + [n], "..");
    WalkOne([], "..");
    WalkOne(stack, "");
    WalkOne(stack, ".");
    assert (stack + [n])[..|stack|] == stack;
  }

  lemma WalkOne(stack: seq<string>, c: string)
    ensures Walk(stack, [c])
         == if c == "" || c == "." then Some(stack)
            else if c != ".." then Some(stack + [c])
            else if stack == [] then None else Some(stack[..|stack| - 1])
  {
    assert [c][..0] == [];
    assert Walk(stack, []) == Some(stack);
  }

  /** How deep a reference has got, dots not counting. */
  function Level(depth: int, cs: seq<string>): int {
    if cs == [] then depth
    else
      var c := cs[|cs| - 1];
      Level(depth, cs[..|cs| - 1]) + if c == "" || c == "." then 0 else if c == ".." then -1 else 1
  }

  lemma {:induction false} WalkFailsIffBelow(stack: seq<string>, cs: seq<string>)
    ensures Walk(stack, cs).Some? ==> |Walk(stack, cs).value| == Level(|stack|, cs)
    ensures Walk(stack, cs).None? <==> exists k :: 0 <= k <= |cs| && Level(|stack|, cs[..k]) < 0
    decreases |cs|
  {
    assert cs[..|cs|] == cs;
    if cs != [] {
      var front := cs[..|cs| - 1];
      WalkFailsIffBelow(stack, front);
      assert forall k :: 0 <= k <= |front| ==> front[..k] == cs[..k];
    }
  }

  /** A reference is refused exactly when it goes above the workspace root on the way, even if it
      comes back. */
  lemma EscapesIffAboveRoot(base: string, rel: string)
    requires CleanPkg(base)
    ensures JoinRelCheckedPkg(base, rel).Err?
       <==> exists k :: 0 <= k <= |Split(rel)| && Level(|Components(base)|, Split(rel)[..k]) < 0
  {
    WalkFromBase(base, rel);
    WalkFailsIffBelow(Components(base), Split(rel));
  }

  lemma JoinCons(c: string, rest: seq<string>)
    requires rest != []
    ensures JoinSlash([c] + rest) == c + "/" + JoinSlash(rest)
  {
    assert ([c] + rest)[1..] == rest;
  }

  lemma Regroup(c: string, p: string, rest: string)
    ensures (c + p) + "/" + rest == c + (p + "/" + rest)
  {
  }

  lemma ExtendJoined(c: char, r: seq<string>)
    requires |r| >= 1
    ensures JoinSlash(Extend(c, r)) == [c] + JoinSlash(r)
  {
    if c == '/' {
      JoinCons("", r);
      assert "" + "/" == [c];
    } else if |r| > 1 {
      JoinCons([c] + r[0], r[1..]);
      Regroup([c], r[0], JoinSlash(r[1..]));
    }
  }

  /** Splitting cuts at the slashes and nowhere else. */
  lemma {:induction false} SplitIsAtSlashes(s: string)
    ensures JoinSlash(Split(s)) == s && forall i :: 0 <= i < |Split(s)| ==> NoSlash(Split(s)[i])
  {
    SplitHasNoSlash(s);
    if s != "" {
      SplitIsAtSlashes(s[1..]);
      ExtendJoined(s[0], Split(s[1..]));
      assert s == [s[0]] + s[1..];
    }
  }

  /** Walking plain pieces pushes the non-empty ones. */
  lemma {:induction false} WalkPlain(stack: seq<string>, cs: seq<string>)
    requires forall i :: 0 <= i < |cs| ==> Plain(cs[i])
    ensures Walk(stack, cs) == Some(stack + NonEmpty(cs))
    decreases |cs|
  {
    if cs != [] {
      var front, c := cs[..|cs| - 1], cs[|cs| - 1];
      WalkPlain(stack, front);
      assert Plain(c);
      assert stack + NonEmpty(front) + [c] == stack + (NonEmpty(front) + [c]);
      assert NonEmpty(front) + [] == NonEmpty(front);
    } else {
      assert stack + [] == stack;
    }
  }

  lemma {:induction false} NonEmptyHas(cs: seq<string>, i: nat)
    requires i < |cs| && cs[i] != ""
    ensures cs[i] in NonEmpty(cs)
    decreases |cs|
  {
    if i < |cs| - 1 {
      NonEmptyHas(cs[..|cs| - 1], i);
    }
  }

  lemma {:induction false} NonEmptyFrom(cs: seq<string>)
    ensures forall i :: 0 <= i < |NonEmpty(cs)| ==> NonEmpty(cs)[i] != "" && NonEmpty(cs)[i] in cs
    decreases |cs|
  {
    if cs != [] {
      NonEmptyFrom(cs[..|cs| - 1]);
    }
  }

  /** A clean package is reached from the root by walking its own text. */
  lemma WalkPackage(pkg: string)
    requires CleanPkg(pkg)
    ensures Walk([], Split(pkg)) == Some(Components(pkg))
  {
    forall i | 0 <= i < |Split(pkg)| ensures Plain(Split(pkg)[i]) {
      if Split(pkg)[i] != "" {
        NonEmptyHas(Split(pkg), i);
        var j :| 0 <= j < |Components(pkg)| && Components(pkg)[j] == Split(pkg)[i];
        assert Plain(Components(pkg)[j]);
      }
    }
    WalkPlain([], Split(pkg));
    assert [] + Components(pkg) == Components(pkg);
  }

  // ---------------------------------------------------------------- rendering

  function SharedPrefix(b: seq<string>, t: seq<string>): (n: nat)
    ensures n <= |b| && n <= |t| && b[..n] == t[..n]
    ensures n < |b| && n < |t| ==> b[n] != t[n]
  {
    if b == [] || t == [] || b[0] != t[0] then 0
    else
      var n := SharedPrefix(b[1..], t[1..]);
      assert b[..n + 1] == [b[0]] + b[1..][..n] && t[..n + 1] == [t[0]] + t[1..][..n];
      n + 1
  }

  function Ups(n: nat): string {
    if n == 0 then "" else "../" + Ups(n - 1)
  }

  /** `render_relative_pkg`. */
  function Render(base: string, p: string): Option<string> {
    RenderText(Components(base), Components(p))
  }

  function RenderText(b: seq<string>, t: seq<string>): Option<string> {
    var common := SharedPrefix(b, t);
    var ups, rest := |b| - common, JoinSlash(t[common..]);
    if ups == 0 then if rest == "" then None else Some("./" + rest)
    else Some(Ups(ups) + rest)
  }

  // ---------------------------------------------------------------- resolving

  datatype Error = EscapesRoot

  function JoinRaw(pkg: string, rel: string): string {
    if pkg == "" then rel else if rel == "" then pkg else pkg + "/" + rel
  }

  predicate EndsInSlash(s: string) { s != "" && s[|s| - 1] == '/' }

  function TrimSlashes(s: string): string {
    if EndsInSlash(s) then TrimSlashes(s[..|s| - 1]) else s
  }

  function JoinRelChecked(pkg: string, rel: string): Result<string, Error> {
    var joined := JoinRaw(pkg, rel);
    var out := Walk([], Split(joined));
    if out.None? then Err(EscapesRoot)
    else
      var s := JoinSlash(out.value);
      Ok(if EndsInSlash(joined) && s != "" then s + "/" else s)
  }

  function JoinRelCheckedPkg(pkg: string, rel: string): Result<string, Error> {
    match JoinRelChecked(pkg, rel)
    case Err(e) => Err(e)
    case Ok(s) => Ok(TrimSlashes(s))
  }

  // ---------------------------------------------------------------- the round trip

  function DotDots(n: nat): seq<string> {
    if n == 0 then [] else [".."] + DotDots(n - 1)
  }

  lemma {:induction false} SplitUps(n: nat, rest: string)
    ensures Split(Ups(n) + rest) == DotDots(n) + Split(rest)
  {
    if n == 0 {
      assert "" + rest == rest;
    } else {
      var tail := Ups(n - 1) + rest;
      SplitUps(n - 1, rest);
      assert Split("..") == [".."] by {
        SplitPlain("..");
      }
      assert Ups(n) + rest == ".." + "/" + tail by {
        assert "../" == ".." + "/";
      }
      SplitAtSlash("..", tail);
      assert DotDots(n) + Split(rest) == [".."] + (DotDots(n - 1) + Split(rest));
    }
  }

  lemma {:induction false} WalkUps(stack: seq<string>, n: nat)
    requires n <= |stack|
    ensures Walk(stack, DotDots(n)) == Some(stack[..|stack| - n])
    decreases n
  {
    if n > 0 {
      var up := stack[..|stack| - 1];
      WalkConcat(stack, [".."], DotDots(n - 1));
      assert [".."][..0] == [];
      assert Walk(stack, []) == Some(stack);
      assert Walk(stack, [".."]) == Some(up);
      WalkUps(up, n - 1);
      assert up[..|up| - (n - 1)] == stack[..|stack| - n];
    } else {
      assert stack[..|stack|] == stack;
    }
  }

  ghost predicate CleanComponents(cs: seq<string>) {
    forall i :: 0 <= i < |cs| ==> cs[i] != "" && Plain(cs[i]) && NoSlash(cs[i])
  }

  lemma ComponentsClean(pkg: string)
    requires CleanPkg(pkg)
    ensures CleanComponents(Components(pkg))
  {
    NonEmptyFrom(Split(pkg));
    SplitHasNoSlash(pkg);
  }

  lemma {:induction false} NonEmptyAll(cs: seq<string>)
    requires forall i :: 0 <= i < |cs| ==> cs[i] != ""
    ensures NonEmpty(cs) == cs
    decreases |cs|
  {
    if cs != [] {
      NonEmptyAll(cs[..|cs| - 1]);
    }
  }

  lemma WalkJoined(stack: seq<string>, cs: seq<string>)
    requires CleanComponents(cs)
    ensures Walk(stack, Split(JoinSlash(cs))) == Some(stack + cs)
  {
    if cs == [] {
      assert [""][..0] == [];
      assert Walk(stack, []) == Some(stack);
      assert stack + [] == stack;
    } else {
      SplitJoined(cs);
      WalkPlain(stack, cs);
      NonEmptyAll(cs);
    }
  }

  /** How a rendered text starts: `.`, or one `..` per component to leave. */
  function Leave(b: seq<string>, t: seq<string>): seq<string> {
    var ups := |b| - SharedPrefix(b, t);
    if ups == 0 then ["."] else DotDots(ups)
  }

  lemma TextPieces(b: seq<string>, t: seq<string>)
    requires RenderText(b, t).Some?
    ensures Split(RenderText(b, t).value) == Leave(b, t) + Split(JoinSlash(t[SharedPrefix(b, t)..]))
  {
    var common := SharedPrefix(b, t);
    var rest := JoinSlash(t[common..]);
    if common == |b| {
      SplitPlain(".");
      SplitAtSlash(".", rest);
      assert "./" + rest == "." + "/" + rest;
    } else {
      SplitUps(|b| - common, rest);
    }
  }

  lemma WalkLeave(b: seq<string>, t: seq<string>)
    ensures Walk(b, Leave(b, t)) == Some(b[..SharedPrefix(b, t)])
  {
    var ups := |b| - SharedPrefix(b, t);
    if ups == 0 {
      assert ["."][..0] == [];
      assert Walk(b, []) == Some(b);
      assert b[..|b|] == b;
    } else {
      WalkUps(b, ups);
    }
  }

  /** Walking a rendered text from the base lands on the target, never above the root. */
  lemma RenderedWalk(b: seq<string>, t: seq<string>)
    requires CleanComponents(t) && RenderText(b, t).Some?
    ensures Walk(b, Split(RenderText(b, t).value)) == Some(t)
  {
    TextPieces(b, t);
    LeaveThenEnter(b, t);
  }

  lemma LeaveThenEnter(b: seq<string>, t: seq<string>)
    requires CleanComponents(t)
    ensures Walk(b, Leave(b, t) + Split(JoinSlash(t[SharedPrefix(b, t)..]))) == Some(t)
  {
    var common := SharedPrefix(b, t);
    var cs := t[common..];
    WalkLeave(b, t);
    WalkConcat(b, Leave(b, t), Split(JoinSlash(cs)));
    WalkJoined(b[..common], cs);
    assert b[..common] + cs == t;
  }

  lemma NoTextIffSame(b: seq<string>, t: seq<string>)
    requires CleanComponents(t)
    ensures RenderText(b, t).None? <==> b == t
  {
    var common := SharedPrefix(b, t);
    JoinedEnd(t[common..]);
    assert t == t[..common] + t[common..] && b == b[..common] + b[common..];
  }

  /** Resolving a reference walks it from the base package. */
  lemma WalkFromBase(base: string, rel: string)
    requires CleanPkg(base)
    ensures Walk([], Split(JoinRaw(base, rel))) == Walk(Components(base), Split(rel))
  {
    assert [""][..0] == [] && NonEmpty([]) == [];
    assert Components("") == [];
    if rel == "" {
      WalkPackage(base);
      assert Walk(Components(base), []) == Some(Components(base));
    } else if base != "" {
      SplitAtSlash(base, rel);
      WalkPackage(base);
      WalkConcat([], Split(base), Split(rel));
    }
  }

  lemma {:induction false} JoinedEnd(cs: seq<string>)
    requires CleanComponents(cs)
    ensures !EndsInSlash(JoinSlash(cs))
    ensures cs != [] ==> JoinSlash(cs) != ""
    decreases |cs|
  {
    if |cs| == 1 {
      assert NoSlash(cs[0]) && cs[0] != "";
    } else if |cs| > 1 {
      JoinedEnd(cs[1..]);
    }
  }

  lemma TrimJoined(cs: seq<string>)
    requires CleanComponents(cs)
    ensures TrimSlashes(JoinSlash(cs)) == JoinSlash(cs)
    ensures TrimSlashes(JoinSlash(cs) + "/") == JoinSlash(cs)
  {
    JoinedEnd(cs);
    var s := JoinSlash(cs) + "/";
    assert s[..|s| - 1] == JoinSlash(cs);
  }

  /** Relative rendering round-trips: the resolver reads the rendered text back as exactly the
      target package, and there is no text exactly when the two packages are the same. */
  lemma RenderRoundTrips(base: string, p: string)
    requires CleanPkg(base) && CleanPkg(p)
    ensures Render(base, p).None? <==> Components(base) == Components(p)
    ensures Render(base, p).Some? ==> JoinRelCheckedPkg(base, Render(base, p).value) == Ok(JoinSlash(Components(p)))
  {
    ComponentsClean(p);
    NoTextIffSame(Components(base), Components(p));
    if Render(base, p).Some? {
      RenderedWalk(Components(base), Components(p));
      ResolvesIffWalks(base, Render(base, p).value, Components(p));
    }
  }

  lemma {:induction false} WalkStaysClean(stack: seq<string>, cs: seq<string>)
    requires CleanComponents(stack) && (forall i :: 0 <= i < |cs| ==> NoSlash(cs[i])) && Walk(stack, cs).Some?
    ensures CleanComponents(Walk(stack, cs).value)
    decreases |cs|
  {
    if cs != [] {
      WalkStaysClean(stack, cs[..|cs| - 1]);
    }
  }

  lemma JoinSlashInjective(a: seq<string>, b: seq<string>)
    requires CleanComponents(a) && CleanComponents(b) && JoinSlash(a) == JoinSlash(b)
    ensures a == b
  {
    JoinedEnd(a);
    JoinedEnd(b);
    if a != [] && b != [] {
      SplitJoined(a);
      SplitJoined(b);
    }
  }

  /** The resolver finds a package exactly when walking the reference from the base reaches it. */
  lemma ResolvesIffWalks(base: string, rel: string, t: seq<string>)
    requires CleanPkg(base) && CleanComponents(t)
    ensures JoinRelCheckedPkg(base, rel) == Ok(JoinSlash(t)) <==> Walk(Components(base), Split(rel)) == Some(t)
  {
    WalkFromBase(base, rel);
    var out := Walk([], Split(JoinRaw(base, rel)));
    if out.Some? {
      SplitHasNoSlash(JoinRaw(base, rel));
      WalkStaysClean([], Split(JoinRaw(base, rel)));
      TrimJoined(out.value);
      if JoinSlash(out.value) == JoinSlash(t) {
        JoinSlashInjective(out.value, t);
      }
    }
  }

  // ---------------------------------------------------------------- fewest steps up

  function CountUps(cs: seq<string>): nat {
    if cs == [] then 0 else CountUps(cs[..|cs| - 1]) + if cs[|cs| - 1] == ".." then 1 else 0
  }

  /** A walk with `k` steps up keeps all but the last `k` components it started from. */
  lemma {:induction false} WalkKeeps(b: seq<string>, w: seq<string>)
    requires Walk(b, w).Some?
    ensures var t, k := Walk(b, w).value, CountUps(w);
            k <= |b| ==> |b| - k <= |t| && t[..|b| - k] == b[..|b| - k]
    decreases |w|
  {
    if w == [] {
      assert b[..|b|] == b;
    } else {
      var front := w[..|w| - 1];
      WalkKeeps(b, front);
      var s, k := Walk(b, front).value, CountUps(front);
      if k <= |b| && w[|w| - 1] == ".." && k + 1 <= |b| {
        assert s[..|b| - k][..|b| - k - 1] == b[..|b| - k][..|b| - k - 1];
      }
    }
  }

  lemma {:induction false} CountUpsConcat(xs: seq<string>, ys: seq<string>)
    ensures CountUps(xs + ys) == CountUps(xs) + CountUps(ys)
    decreases |ys|
  {
    if ys == [] {
      assert xs + ys == xs;
    } else {
      CountUpsConcat(xs, ys[..|ys| - 1]);
      assert (xs + ys)[..|xs + ys| - 1] == xs + ys[..|ys| - 1];
    }
  }

  lemma {:induction false} CountDotDots(n: nat)
    ensures CountUps(DotDots(n)) == n
  {
    if n > 0 {
      CountDotDots(n - 1);
      CountUpsConcat([".."], DotDots(n - 1));
      assert [".."][..0] == [];
    }
  }

  lemma {:induction false} CountPlain(cs: seq<string>)
    requires forall i :: 0 <= i < |cs| ==> cs[i] != ".."
    ensures CountUps(cs) == 0
    decreases |cs|
  {
    if cs != [] {
      CountPlain(cs[..|cs| - 1]);
    }
  }

  lemma RenderedUps(b: seq<string>, t: seq<string>)
    requires CleanComponents(t) && RenderText(b, t).Some?
    ensures CountUps(Split(RenderText(b, t).value)) == |b| - SharedPrefix(b, t)
  {
    var cs := t[SharedPrefix(b, t)..];
    TextPieces(b, t);
    CountUpsConcat(Leave(b, t), Split(JoinSlash(cs)));
    LeaveUps(b, t);
    JoinedUps(cs);
  }

  lemma LeaveUps(b: seq<string>, t: seq<string>)
    ensures CountUps(Leave(b, t)) == |b| - SharedPrefix(b, t)
  {
    CountPlain(["."]);
    CountDotDots(|b| - SharedPrefix(b, t));
  }

  lemma JoinedUps(cs: seq<string>)
    requires CleanComponents(cs)
    ensures CountUps(Split(JoinSlash(cs))) == 0
  {
    if cs != [] {
      SplitJoined(cs);
    }
    CountPlain(Split(JoinSlash(cs)));
  }

  lemma FewestUps(b: seq<string>, t: seq<string>, w: seq<string>)
    requires Walk(b, w) == Some(t)
    ensures |b| - SharedPrefix(b, t) <= CountUps(w)
  {
    WalkKeeps(b, w);
    var common := SharedPrefix(b, t);
    assert forall m :: common < m <= |b| && m <= |t| ==> t[..m][common] == t[common] && b[..m][common] == b[common];
  }

  /** No reference that reaches the target from the base has fewer `..` than the rendered one. */
  lemma RenderUsesFewestUps(base: string, p: string, other: string)
    requires CleanPkg(base) && CleanPkg(p) && Render(base, p).Some?
    requires JoinRelCheckedPkg(base, other) == Ok(JoinSlash(Components(p)))
    ensures CountUps(Split(Render(base, p).value)) <= CountUps(Split(other))
  {
    var b, t := Components(base), Components(p);
    ComponentsClean(p);
    RenderedUps(b, t);
    ResolvesIffWalks(base, other, t);
    FewestUps(b, t, Split(other));
  }

  // ---------------------------------------------------------------- the probe before offering it

  datatype Addr = Addr(pkg: string, name: string)

  predicate EndsPkg(c: char) { c == ':' || c == ' ' }

  predicate EndsName(c: char) { c == '@' || c == ':' || c == ' ' || c == '|' }

  /** `take_till`: how many leading characters do not satisfy `stop`. */
  function TakeTill(s: string, stop: char -> bool): (k: nat)
    ensures k <= |s| && (forall i :: 0 <= i < k ==> !stop(s[i])) && (k < |s| ==> stop(s[k]))
  {
    if s == "" || stop(s[0]) then 0 else 1 + TakeTill(s[1..], stop)
  }

  predicate StartsWith(s: string, prefix: string) { prefix <= s }

  /** `parse_addr`; `argsOk` stands for the grammar of the arguments after `@`. */
  function ParseAddr(input: string, argsOk: string -> bool): Option<Addr> {
    if StartsWith(input, "//") then ParseBody(input[2..], argsOk) else None
  }

  function ParseBody(rest: string, argsOk: string -> bool): Option<Addr> {
    var k := TakeTill(rest, EndsPkg);
    if k == |rest| || rest[k] != ':' then None
    else ParseTarget(JoinRelCheckedPkg("", rest[..k]), rest[k + 1..], argsOk)
  }

  function ParseTarget(pkg: Result<string, Error>, r: string, argsOk: string -> bool): Option<Addr> {
    var j := TakeTill(r, EndsName);
    var args := r[j..];
    if j == 0 || !(args == "" || (args[0] == '@' && argsOk(args[1..]))) || pkg.Err? then None
    else Some(Addr(pkg.value, r[..j]))
  }

  /** `parse_addr_with_base`. */
  function ParseAddrWithBase(input: string, base: string, argsOk: string -> bool): Option<Addr> {
    if StartsWith(input, "//") then ParseAddr(input, argsOk)
    else if StartsWith(input, ":") then ParseAddr("//" + base + input, argsOk)
    else if StartsWith(input, "./") || StartsWith(input, "../") then ParseRelative(input, base, argsOk)
    else None
  }

  function ParseRelative(input: string, base: string, argsOk: string -> bool): Option<Addr> {
    var k := TakeTill(input, IsColon);
    if k == |input| then None
    else
      var pkg := JoinRelCheckedPkg(base, input[..k]);
      if pkg.Err? then None else ParseAddr("//" + pkg.value + input[k..], argsOk)
  }

  predicate IsColon(c: char) { c == ':' }

  /** A target name that parses as itself; the source probes with `__heph_probe__`. */
  predicate PlainName(name: string) {
    name != "" && forall i :: 0 <= i < |name| ==> name[i] != '@' && name[i] != ':' && name[i] != ' ' && name[i] != '|'
  }

  /** `round_trips`: the candidate is offered only if it parses back to its package. */
  predicate RoundTrips(rel: string, base: string, pkg: string, name: string, argsOk: string -> bool) {
    var a := ParseAddrWithBase(rel + (":" + name), base, argsOk);
    a.Some? && a.value.pkg == pkg
  }

  predicate AllOk(s: string) { forall i :: 0 <= i < |s| ==> s[i] != ':' && s[i] != ' ' }

  lemma {:induction false} SplitOk(s: string)
    requires AllOk(s)
    ensures forall i :: 0 <= i < |Split(s)| ==> AllOk(Split(s)[i])
  {
    if s != "" {
      SplitOk(s[1..]);
    }
  }

  lemma {:induction false} WalkOk(stack: seq<string>, cs: seq<string>)
    requires Walk(stack, cs).Some?
    requires (forall i :: 0 <= i < |stack| ==> AllOk(stack[i])) && (forall i :: 0 <= i < |cs| ==> AllOk(cs[i]))
    ensures forall i :: 0 <= i < |Walk(stack, cs).value| ==> AllOk(Walk(stack, cs).value[i])
    decreases |cs|
  {
    if cs != [] {
      WalkOk(stack, cs[..|cs| - 1]);
    }
  }

  lemma {:induction false} JoinOk(cs: seq<string>)
    ensures AllOk(JoinSlash(cs)) <==> forall i :: 0 <= i < |cs| ==> AllOk(cs[i])
    decreases |cs|
  {
    if |cs| == 1 {
    } else if |cs| > 1 {
      JoinOk(cs[1..]);
      var rest := JoinSlash(cs[1..]);
      ConcatOk(cs[0], "/");
      ConcatOk(cs[0] + "/", rest);
      assert cs == [cs[0]] + cs[1..];
    }
  }

  lemma ConcatOk(s: string, t: string)
    ensures AllOk(s + t) <==> AllOk(s) && AllOk(t)
  {
    if AllOk(s + t) {
      assert forall i :: 0 <= i < |s| ==> s[i] == (s + t)[i];
      assert forall i :: 0 <= i < |t| ==> t[i] == (s + t)[|s| + i];
    }
  }

  /** A parsed address never has a `:` or a space in its package. */
  lemma ParsedPkgOk(input: string, argsOk: string -> bool)
    requires ParseAddr(input, argsOk).Some?
    ensures AllOk(ParseAddr(input, argsOk).value.pkg)
  {
    var rest := input[2..];
    var p := rest[..TakeTill(rest, EndsPkg)];
    SplitOk(p);
    WalkOk([], Split(p));
    var out := Walk([], Split(p)).value;
    JoinOk(out);
    SplitHasNoSlash(p);
    WalkStaysClean([], Split(p));
    TrimJoined(out);
  }

  lemma CanonicalResolves(p: string)
    requires CleanPkg(p) && p == JoinSlash(Components(p))
    ensures JoinRelCheckedPkg("", p) == Ok(p)
  {
    WalkPackage(p);
    ComponentsClean(p);
    assert Components("") == [] by {
      assert [""][..0] == [] && NonEmpty([]) == [];
    }
    ResolvesIffWalks("", p, Components(p));
  }

  lemma TakeTillIs(s: string, t: string, stop: char -> bool)
    requires (forall i :: 0 <= i < |s| ==> !stop(s[i])) && (t != "" ==> stop(t[0]))
    ensures TakeTill(s + t, stop) == |s|
  {
    var k := TakeTill(s + t, stop);
    assert forall i :: 0 <= i < |s| ==> (s + t)[i] == s[i];
    assert t != "" ==> (s + t)[|s|] == t[0];
  }

  lemma TargetPlain(p: string, name: string, argsOk: string -> bool)
    requires PlainName(name)
    ensures ParseTarget(Ok(p), name, argsOk) == Some(Addr(p, name))
  {
    TakeTillIs(name, "", EndsName);
    assert name + "" == name;
    assert name[..|name|] == name;
  }

  lemma BodyPlain(p: string, name: string, argsOk: string -> bool)
    requires JoinRelCheckedPkg("", p) == Ok(p) && AllOk(p) && PlainName(name)
    ensures ParseBody(p + (":" + name), argsOk) == Some(Addr(p, name))
  {
    BodySplit(p, name, argsOk);
    TargetPlain(p, name, argsOk);
  }

  lemma BodySplit(p: string, name: string, argsOk: string -> bool)
    requires AllOk(p)
    ensures ParseBody(p + (":" + name), argsOk) == ParseTarget(JoinRelCheckedPkg("", p), name, argsOk)
  {
    TakeTillIs(p, ":" + name, EndsPkg);
    AroundColon(p, name);
  }

  lemma AroundColon(p: string, name: string)
    ensures var rest := p + (":" + name);
            rest[..|p|] == p && rest[|p|] == ':' && rest[|p| + 1..] == name
  {
  }

  /** A canonical package parses back from its absolute form, with any plain target name. */
  lemma ParseAbsolute(p: string, name: string, argsOk: string -> bool)
    requires JoinRelCheckedPkg("", p) == Ok(p) && AllOk(p) && PlainName(name)
    ensures ParseAddr("//" + p + (":" + name), argsOk) == Some(Addr(p, name))
  {
    BodyPlain(p, name, argsOk);
    AddrBody(p, ":" + name, argsOk);
  }

  lemma AddrBody(p: string, tail: string, argsOk: string -> bool)
    ensures ParseAddr("//" + p + tail, argsOk) == ParseBody(p + tail, argsOk)
  {
    var input := "//" + p + tail;
    assert input[2..] == p + tail;
  }

  lemma {:induction false} UpsOk(n: nat)
    ensures AllOk(Ups(n))
  {
    if n > 0 {
      UpsOk(n - 1);
      ConcatOk("../", Ups(n - 1));
    }
  }

  lemma TextOk(b: seq<string>, t: seq<string>)
    requires RenderText(b, t).Some? && (forall i :: 0 <= i < |t| ==> AllOk(t[i]))
    ensures AllOk(RenderText(b, t).value)
  {
    var common := SharedPrefix(b, t);
    var rest := JoinSlash(t[common..]);
    JoinOk(t[common..]);
    if common == |b| {
      ConcatOk("./", rest);
    } else {
      UpsOk(|b| - common);
      ConcatOk(Ups(|b| - common), rest);
    }
  }

  lemma TextStart(b: seq<string>, t: seq<string>)
    requires RenderText(b, t).Some?
    ensures StartsWith(RenderText(b, t).value, "./") || StartsWith(RenderText(b, t).value, "../")
  {
    var common := SharedPrefix(b, t);
    if common < |b| {
      var rest := JoinSlash(t[common..]);
      assert Ups(|b| - common) + rest == "../" + (Ups(|b| - common - 1) + rest);
    }
  }

  lemma RelativeForm(rel: string, tail: string, base: string, argsOk: string -> bool)
    requires StartsWith(rel, "./") || StartsWith(rel, "../")
    ensures ParseAddrWithBase(rel + tail, base, argsOk) == ParseRelative(rel + tail, base, argsOk)
  {
    var input := rel + tail;
    assert input[0] == '.';
    assert StartsWith(input, "./") || StartsWith(input, "../");
  }

  /** A reference without a colon is resolved whole, and the target taken from the tail. */
  lemma RelativeResolved(rel: string, name: string, base: string, p: string, argsOk: string -> bool)
    requires AllOk(rel) && JoinRelCheckedPkg(base, rel) == Ok(p)
    ensures ParseRelative(rel + (":" + name), base, argsOk) == ParseAddr("//" + p + (":" + name), argsOk)
  {
    var tail := ":" + name;
    TakeTillIs(rel, tail, IsColon);
    assert (rel + tail)[..|rel|] == rel && (rel + tail)[|rel|..] == tail;
  }

  lemma ProbeAccepts(rel: string, base: string, p: string, name: string, argsOk: string -> bool)
    requires StartsWith(rel, "./") || StartsWith(rel, "../")
    requires AllOk(rel) && AllOk(p) && PlainName(name)
    requires JoinRelCheckedPkg(base, rel) == Ok(p) && JoinRelCheckedPkg("", p) == Ok(p)
    ensures RoundTrips(rel, base, p, name, argsOk)
  {
    RelativeForm(rel, ":" + name, base, argsOk);
    RelativeResolved(rel, name, base, p, argsOk);
    ParseAbsolute(p, name, argsOk);
  }

  lemma ProbeRejects(rel: string, base: string, p: string, name: string, argsOk: string -> bool)
    requires StartsWith(rel, "./") || StartsWith(rel, "../")
    requires RoundTrips(rel, base, p, name, argsOk)
    ensures AllOk(p)
  {
    var input := rel + (":" + name);
    RelativeForm(rel, ":" + name, base, argsOk);
    var k := TakeTill(input, IsColon);
    ParsedPkgOk("//" + JoinRelCheckedPkg(base, input[..k]).value + input[k..], argsOk);
  }

  /** The three forms of an address: absolute whatever the base, `:name` in the base's own package, and
      a relative path in the package it leads to. */
  lemma AddressForms(base: string, p: string, rel: string, name: string, argsOk: string -> bool)
    requires PlainName(name) && AllOk(base) && JoinRelCheckedPkg("", base) == Ok(base)
    requires AllOk(p) && JoinRelCheckedPkg("", p) == Ok(p)
    ensures ParseAddrWithBase("//" + p + (":" + name), base, argsOk) == Some(Addr(p, name))
    ensures ParseAddrWithBase(":" + name, base, argsOk) == Some(Addr(base, name))
    ensures (StartsWith(rel, "./") || StartsWith(rel, "../")) && AllOk(rel) && JoinRelCheckedPkg(base, rel) == Ok(p)
            ==> ParseAddrWithBase(rel + (":" + name), base, argsOk) == Some(Addr(p, name))
  {
    AbsoluteForm(base, p, name, argsOk);
    NameForm(base, name, argsOk);
    if (StartsWith(rel, "./") || StartsWith(rel, "../")) && AllOk(rel) && JoinRelCheckedPkg(base, rel) == Ok(p) {
      RelativeForm(rel, ":" + name, base, argsOk);
      RelativeResolved(rel, name, base, p, argsOk);
      ParseAbsolute(p, name, argsOk);
    }
  }

  lemma AbsoluteForm(base: string, p: string, name: string, argsOk: string -> bool)
    requires PlainName(name) && AllOk(p) && JoinRelCheckedPkg("", p) == Ok(p)
    ensures ParseAddrWithBase("//" + p + (":" + name), base, argsOk) == Some(Addr(p, name))
  {
    ParseAbsolute(p, name, argsOk);
    var input := "//" + p + (":" + name);
    assert input[..2] == "//";
  }

  lemma NameForm(base: string, name: string, argsOk: string -> bool)
    requires PlainName(name) && AllOk(base) && JoinRelCheckedPkg("", base) == Ok(base)
    ensures ParseAddrWithBase(":" + name, base, argsOk) == Some(Addr(base, name))
  {
    ParseAbsolute(base, name, argsOk);
    var input := ":" + name;
    assert input[0] == ':';
  }

  /** The probe keeps exactly the candidates it should: a rendered package is offered if and only if
      its name holds neither `:` nor a space, the characters that end a package in an address. */
  lemma ProbeIsExact(base: string, p: string, name: string, argsOk: string -> bool)
    requires CleanPkg(base) && CleanPkg(p) && p == JoinSlash(Components(p)) && Render(base, p).Some?
    requires PlainName(name)
    ensures RoundTrips(Render(base, p).value, base, p, name, argsOk) <==> AllOk(p)
  {
    TextStart(Components(base), Components(p));
    var rel := Render(base, p).value;
    if AllOk(p) {
      JoinOk(Components(p));
      TextOk(Components(base), Components(p));
      RenderRoundTrips(base, p);
      CanonicalResolves(p);
      ProbeAccepts(rel, base, p, name, argsOk);
    } else if RoundTrips(rel, base, p, name, argsOk) {
      ProbeRejects(rel, base, p, name, argsOk);
    }
  }
}
