/** Terms as chains of parts, one after another: the flattening of `;`, and its inverse. */
module Spines {
  import opened Values
  import opened Prims
  import opened Terms

  /** The flattening of `;`, outermost first. */
  function Spine(t: Tree): (r: seq<Tree>)
    ensures |r| > 0
  {
    match t
    case Compose(a, b) => Spine(a) + Spine(b)
    case _ => [t]
  }

  /** Parts that meet end to end, the first of them taking `n`. */
  ghost predicate Chain(parts: seq<Tree>, n: nat) {
    parts == [] || (parts[0].Ok() && parts[0].Effect().inputs == n && Chain(parts[1..], parts[0].Effect().outputs))
  }

  ghost function Width(parts: seq<Tree>, n: nat): nat {
    if parts == [] then n else Width(parts[1..], parts[0].Effect().outputs)
  }

  ghost function RunParts(parts: seq<Tree>, calls: Interp, s: seq<Value>): (r: seq<Value>)
    requires Chain(parts, |s|)
    ensures |r| == Width(parts, |s|)
  {
    if parts == [] then s else RunParts(parts[1..], calls, Run(parts[0], calls, s))
  }

  lemma {:induction false} ChainsJoin(a: seq<Tree>, b: seq<Tree>, n: nat)
    ensures Chain(a + b, n) <==> Chain(a, n) && Chain(b, Width(a, n))
    ensures Width(a + b, n) == Width(b, Width(a, n))
  {
    if a == [] {
      assert a + b == b;
    } else {
      assert (a + b)[1..] == a[1..] + b;
      ChainsJoin(a[1..], b, a[0].Effect().outputs);
    }
  }

  lemma {:induction false} PartsJoin(a: seq<Tree>, b: seq<Tree>, calls: Interp, s: seq<Value>)
    requires Chain(a + b, |s|)
    ensures Chain(a, |s|) && Chain(b, Width(a, |s|))
    ensures RunParts(a + b, calls, s) == RunParts(b, calls, RunParts(a, calls, s))
    decreases |a|
  {
    ChainsJoin(a, b, |s|);
    if a == [] {
      assert a + b == b;
    } else {
      assert (a + b)[1..] == a[1..] + b;
      PartsJoin(a[1..], b, calls, Run(a[0], calls, s));
    }
  }

  lemma {:induction false} SpineChains(t: Tree)
    requires t.Ok()
    ensures Chain(Spine(t), t.Effect().inputs) && Width(Spine(t), t.Effect().inputs) == t.Effect().outputs
  {
    match t
    case Compose(a, b) =>
      SpineChains(a);
      SpineChains(b);
      ChainsJoin(Spine(a), Spine(b), a.Effect().inputs);
    case _ =>
  }

  /** A term does what its spine does. */
  lemma {:induction false} SpineRuns(t: Tree, calls: Interp, s: seq<Value>)
    requires t.Ok() && |s| == t.Effect().inputs
    ensures Chain(Spine(t), |s|) && RunParts(Spine(t), calls, s) == Run(t, calls, s)
  {
    SpineChains(t);
    match t
    case Compose(a, b) =>
      PartsJoin(Spine(a), Spine(b), calls, s);
      SpineRuns(a, calls, s);
      SpineRuns(b, calls, Run(a, calls, s));
    case _ =>
  }

  function Folded(acc: Tree, parts: seq<Tree>): Tree
    decreases |parts|
  {
    if parts == [] then acc else Folded(Tree.Compose(acc, parts[0]), parts[1..])
  }

  /** A stretch of spine back as a term; an empty one is the identity on what flowed across it. */
  function Rebuilt(parts: seq<Tree>, width: nat): Tree {
    if parts == [] then Tree.Id(width) else Folded(parts[0], parts[1..])
  }

  lemma {:induction false} FoldedRuns(acc: Tree, parts: seq<Tree>, calls: Interp)
    requires acc.Ok() && Chain(parts, acc.Effect().outputs)
    ensures var t := Folded(acc, parts);
      && t.Ok() && t.Effect() == Arity(acc.Effect().inputs, Width(parts, acc.Effect().outputs))
      && forall s: seq<Value> | |s| == acc.Effect().inputs ::
        Run(t, calls, s) == RunParts(parts, calls, Run(acc, calls, s))
    decreases |parts|
  {
    if parts != [] {
      FoldedRuns(Tree.Compose(acc, parts[0]), parts[1..], calls);
    }
  }

  lemma RebuiltRuns(parts: seq<Tree>, width: nat, calls: Interp)
    requires Chain(parts, width)
    ensures Rebuilt(parts, width).Ok()
    ensures Rebuilt(parts, width).Effect() == Arity(width, Width(parts, width))
    ensures forall s: seq<Value> | |s| == width :: Run(Rebuilt(parts, width), calls, s) == RunParts(parts, calls, s)
  {
    if parts != [] {
      FoldedRuns(parts[0], parts[1..], calls);
    }
  }

  // ---- parts by where they sit in an arena ----

  /** The arena's copies of these trees, one for one. */
  ghost predicate Names(terms: seq<Term>, parts: seq<TermIndex>, trees: seq<Tree>)
    requires Ordered(terms)
  {
    && |parts| == |trees|
    && forall k | 0 <= k < |parts| :: parts[k] < |terms| && TreeAt(terms, parts[k]) == trees[k]
  }

  lemma NamesJoin(terms: seq<Term>, a: seq<TermIndex>, b: seq<TermIndex>, x: seq<Tree>, y: seq<Tree>)
    requires Ordered(terms) && Names(terms, a, x) && Names(terms, b, y)
    ensures Names(terms, a + b, x + y)
  {
  }

  lemma NamesStay(terms: seq<Term>, more: seq<Term>, a: seq<TermIndex>, x: seq<Tree>)
    requires Ordered(terms) && Ordered(more) && terms <= more && Names(terms, a, x)
    ensures Names(more, a, x)
  {
    TreesStay(terms, more);
  }
}
