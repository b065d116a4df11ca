/** Through the graph and back: a term built, rewritten to fixpoint and read back is the term it was. */
module Rewriting {
  import opened Values
  import opened Terms
  import opened Wirings
  import opened Graphs
  import opened Derivations
  import Building
  import Checking
  import Saturation
  import ReadBack

  /** Two terms of one arity that no stack tells apart, however operations and calls are read. */
  ghost predicate SameRead(a: Tree, b: Tree) {
    && a.Ok() && b.Ok() && a.Effect() == b.Effect()
    && forall rd: Reading, s: seq<Value> | |s| == a.Effect().inputs :: ReadTerm(a, rd, s) == ReadTerm(b, rd, s)
  }

  /** Read as the machine reads, that is the same program. */
  lemma SameReadIsSame(a: Tree, b: Tree)
    requires SameRead(a, b)
    ensures Same(a, b)
  {
    forall calls: Interp, s: seq<Value> | |s| == a.Effect().inputs ensures Run(a, calls, s) == Run(b, calls, s) {
      ActualRuns(a, calls, s);
      ActualRuns(b, calls, s);
      assert ReadTerm(a, Actual(calls), s) == ReadTerm(b, Actual(calls), s);
    }
  }

  /** A graph that means what a term means, read back, is that term again. */
  lemma ThereAndBack(t: Tree, built: Wiring, left: Wiring, u: Tree)
    requires Building.BuiltFrom(built, t) && Alike(built, left) && ReadBack.Says(u, left)
    ensures SameRead(t, u)
  {
    hide Meaning; hide ReadTerm; hide Wiring.Whole; hide Tree.Ok; hide Tree.Effect;
    forall rd: Reading, s: seq<Value> | |s| == t.Effect().inputs ensures ReadTerm(t, rd, s) == ReadTerm(u, rd, s) {
      assert Meaning(built, rd, s) == Meaning(left, rd, s);
    }
  }

  /**
   * A term as a graph, every structural law spent, and back as a term. The graph in between has nothing
   * left to rewrite, and the run that got there is handed over.
   */
  method Rewrite(terms: Context, term: TermIndex) returns (result: TermIndex, graph: Graph, run: Derivation)
    requires terms.Valid() && terms.Has(term) && terms.At(term).Ok()
    modifies terms
    ensures terms.Grew() && terms.Has(result) && fresh(graph) && fresh(run) && graph.S().Linked()
    ensures SameRead(old(terms.At(term)), terms.At(result)) && Same(old(terms.At(term)), terms.At(result))
    ensures Checking.HoldsTogether(graph.S()) && run.Valid() && run.Reversible() && run.End() == graph.W()
    ensures Saturation.Saturated(graph.W())
    ensures Building.BuiltFrom(run.Start(), old(terms.At(term)))
  {
    hide Store.Linked; hide Alike; hide Building.BuiltFrom; hide ReadBack.Says; hide SameRead; hide Same;
    hide Saturation.Saturated; hide Ended; hide Checking.HoldsTogether;
    graph := Building.Build(terms, term);
    ghost var (built, t) := (graph.W(), terms.At(term));
    BuiltIsWhole(built, t);
    run := Saturation.Saturate(graph);
    AlikeIsWhole(built, graph.W());
    HeldTogether(graph.S());
    result := ReadBack.ReadTermBack(graph, terms);
    ThereAndBack(t, built, graph.W(), terms.At(result));
    SameReadIsSame(t, terms.At(result));
  }

  lemma BuiltIsWhole(w: Wiring, t: Tree)
    requires Building.BuiltFrom(w, t)
    ensures w.Whole() && Ended(w)
  {
  }

  lemma HeldTogether(s: Store)
    requires s.Linked() && s.Wiring().Whole() && Ended(s.Wiring())
    ensures Checking.HoldsTogether(s)
  {
  }
}
