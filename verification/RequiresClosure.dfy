/** `requiresClosure` and `wrapAnalyzers` of `tools/heph-govet/filter.go`: which analyzers may have
    their reports filtered without running twice. */
module RequiresClosure {

  /** An analyzer, by identity. */
  type Analyzer = int

  /** Each analyzer's `Requires` list. Cycles and repeated entries are allowed. */
  type Graph = map<Analyzer, seq<Analyzer>>

  ghost predicate Closed(g: Graph) {
    forall a, i :: a in g && 0 <= i < |g[a]| ==> g[a][i] in g
  }

  /** A walk along one or more `Requires` edges. */
  ghost predicate IsPath(g: Graph, p: seq<Analyzer>) {
    && |p| >= 2
    && forall i :: 0 <= i < |p| - 1 ==> p[i] in g && p[i + 1] in g[p[i]]
  }

  ghost predicate Connects(g: Graph, p: seq<Analyzer>, a: Analyzer, b: Analyzer) {
    IsPath(g, p) && p[0] == a && p[|p| - 1] == b
  }

  ghost predicate Reaches(g: Graph, a: Analyzer, b: Analyzer) {
    exists p :: Connects(g, p, a, b)
  }

  /** `x` is pulled in by the selection through one or more edges. */
  ghost predicate Required(g: Graph, sel: seq<Analyzer>, x: Analyzer) {
    exists i :: 0 <= i < |sel| && Reaches(g, sel[i], x)
  }

  lemma EdgeReaches(g: Graph, a: Analyzer, b: Analyzer)
    requires a in g && b in g[a]
    ensures Reaches(g, a, b)
  {
    assert Connects(g, [a, b], a, b);
  }

  lemma EdgeThenReaches(g: Graph, a: Analyzer, b: Analyzer, c: Analyzer)
    requires a in g && b in g[a] && Reaches(g, b, c)
    ensures Reaches(g, a, c)
  {
    var p :| Connects(g, p, b, c);
    assert Connects(g, [a] + p, a, c);
  }

  ghost predicate HasSuccessors(g: Graph, seen: set<Analyzer>, a: Analyzer) {
    a in g ==> forall r :: r in g[a] ==> r in seen
  }

  /** A set that holds the successors of `a` and of each of its own members holds all `a` reaches. */
  lemma {:induction false} ClosedHoldsPath(g: Graph, seen: set<Analyzer>, p: seq<Analyzer>)
    requires IsPath(g, p) && HasSuccessors(g, seen, p[0])
    requires forall x :: x in seen ==> HasSuccessors(g, seen, x)
    ensures p[|p| - 1] in seen
    decreases |p|
  {
    assert p[0] in g && p[0 + 1] in g[p[0]];
    var next := p[1];
    assert next in seen;
    if |p| > 2 {
      forall i | 0 <= i < |p[1..]| - 1 ensures p[1..][i] in g && p[1..][i + 1] in g[p[1..][i]] {
        assert p[i + 1] in g && p[i + 2] in g[p[i + 1]];
      }
      ClosedHoldsPath(g, seen, p[1..]);
    }
  }

  /** The depth-first search, sharing one `seen` set across the whole selection. */
  class Search {
    const g: Graph
    var seen: set<Analyzer>

    constructor (g: Graph)
      ensures this.g == g && seen == {}
    {
      this.g := g;
      seen := {};
    }

    /** Adds what `a` requires, transitively, skipping what was seen already. */
    method Visit(a: Analyzer)
      requires Closed(g) && a in g && seen <= g.Keys
      modifies this`seen
      ensures old(seen) <= seen <= g.Keys
      ensures HasSuccessors(g, seen, a)
      ensures forall x :: x in seen && x !in old(seen) ==> HasSuccessors(g, seen, x) && Reaches(g, a, x)
      decreases g.Keys - seen
    {
      for i := 0 to |g[a]|
        invariant old(seen) <= seen <= g.Keys
        invariant forall j :: 0 <= j < i ==> g[a][j] in seen
        invariant forall x :: x in seen && x !in old(seen) ==> HasSuccessors(g, seen, x) && Reaches(g, a, x)
      {
        var r := g[a][i];
        if r !in seen {
          ghost var before := seen;
          seen := seen + {r};
          Visit(r);
          EdgeReaches(g, a, r);
          forall x | x in seen && x !in before ensures HasSuccessors(g, seen, x) && Reaches(g, a, x) {
            if x != r {
              EdgeThenReaches(g, a, r, x);
            }
          }
        }
      }
    }

    /** Terminates on any finite graph and returns exactly what the selection requires. */
    method RequiresClosure(sel: seq<Analyzer>)
      requires Closed(g) && seen == {} && (forall i :: 0 <= i < |sel| ==> sel[i] in g)
      modifies this`seen
      ensures forall x :: x in seen <==> Required(g, sel, x)
    {
      for i := 0 to |sel|
        invariant seen <= g.Keys
        invariant forall j :: 0 <= j < i ==> HasSuccessors(g, seen, sel[j])
        invariant forall x :: x in seen ==> HasSuccessors(g, seen, x) && Required(g, sel, x)
      {
        ghost var before := seen;
        Visit(sel[i]);
        assert forall x :: x in seen && x !in before ==> Reaches(g, sel[i], x);
      }
      forall x | Required(g, sel, x) ensures x in seen {
        var i :| 0 <= i < |sel| && Reaches(g, sel[i], x);
        var p :| Connects(g, p, sel[i], x);
        ClosedHoldsPath(g, seen, p);
      }
    }
  }

  // ---------------------------------------------------------------- what gets wrapped

  /** An analyzer handed to the driver: itself, or a copy that filters its reports. The copy keeps
      the original's `Requires`. */
  datatype Emitted = Raw(analyzer: Analyzer) | Wrapped(analyzer: Analyzer)

  /** Each selected analyzer is emitted once, in its place. */
  ghost predicate Covers(sel: seq<Analyzer>, out: seq<Emitted>) {
    |out| == |sel| && forall i :: 0 <= i < |sel| ==> out[i].analyzer == sel[i]
  }

  /** The driver runs the original of `x`: it was emitted, or something emitted requires it. */
  ghost predicate RunsRaw(g: Graph, out: seq<Emitted>, x: Analyzer) {
    Raw(x) in out || exists i :: 0 <= i < |out| && Reaches(g, out[i].analyzer, x)
  }

  ghost predicate RunsTwice(g: Graph, out: seq<Emitted>, x: Analyzer) {
    Wrapped(x) in out && RunsRaw(g, out, x)
  }

  ghost predicate WrapsUnrequired(g: Graph, sel: seq<Analyzer>, out: seq<Emitted>) {
    Covers(sel, out) && forall i :: 0 <= i < |sel| ==> (out[i].Raw? <==> Required(g, sel, sel[i]))
  }

  method WrapAnalyzers(g: Graph, sel: seq<Analyzer>) returns (out: seq<Emitted>)
    requires Closed(g) && forall i :: 0 <= i < |sel| ==> sel[i] in g
    ensures WrapsUnrequired(g, sel, out)
  {
    var search := new Search(g);
    search.RequiresClosure(sel);
    out := [];
    for i := 0 to |sel|
      invariant |out| == i
      invariant forall j :: 0 <= j < i ==> out[j].analyzer == sel[j] && (out[j].Raw? <==> Required(g, sel, sel[j]))
    {
      if sel[i] in search.seen {
        out := out + [Raw(sel[i])];
      } else {
        out := out + [Wrapped(sel[i])];
      }
    }
  }

  lemma RunsRawIffRequired(g: Graph, sel: seq<Analyzer>, out: seq<Emitted>, x: Analyzer)
    requires Covers(sel, out)
    ensures RunsRaw(g, out, x) <==> Raw(x) in out || Required(g, sel, x)
  {
    if RunsRaw(g, out, x) && Raw(x) !in out {
      var i :| 0 <= i < |out| && Reaches(g, out[i].analyzer, x);
      assert Reaches(g, sel[i], x);
    }
    if Required(g, sel, x) {
      var i :| 0 <= i < |sel| && Reaches(g, sel[i], x);
      assert Reaches(g, out[i].analyzer, x);
    }
  }

  /** No analyzer runs both wrapped and raw. */
  lemma NothingRunsTwice(g: Graph, sel: seq<Analyzer>, out: seq<Emitted>, x: Analyzer)
    requires WrapsUnrequired(g, sel, out)
    ensures !RunsTwice(g, out, x)
  {
    RunsRawIffRequired(g, sel, out, x);
    if Wrapped(x) in out {
      var i :| 0 <= i < |out| && out[i] == Wrapped(x);
      assert !Required(g, sel, sel[i]);
    }
  }

  /** And as much as possible is filtered: any emission of the selection that runs nothing twice
      wraps only what this one wraps. */
  lemma WrapsAllThatIsSafe(g: Graph, sel: seq<Analyzer>, out: seq<Emitted>, other: seq<Emitted>, x: Analyzer)
    requires WrapsUnrequired(g, sel, out) && Covers(sel, other)
    requires Wrapped(x) in other && !RunsTwice(g, other, x)
    ensures Wrapped(x) in out
  {
    RunsRawIffRequired(g, sel, other, x);
    var i :| 0 <= i < |other| && other[i] == Wrapped(x);
    assert !Required(g, sel, sel[i]);
    assert out[i] == Wrapped(x);
  }
}
