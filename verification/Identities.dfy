/** Identities of a library, from the two sentences that state one to the two runs it says are alike. */
module Identities {
  import opened Wrappers
  import opened Values
  import opened Terms
  import opened Libraries
  import opened Machine
  import opened Meanings
  import opened Lowering
  import opened Lowerers
  import opened Goals
  import opened Readings
  import opened Strategies
  import opened Tactics

  /** Sentences that leave the same stack, on every stack both of them can run on. */
  ghost predicate Interchangeable(lib: Library, c: Certificate, s: SentenceIndex, t: SentenceIndex)
    requires Covered(lib, c, s) && Covered(lib, c, t)
  {
    forall stack: seq<Value> | |stack| >= c.arities[s].inputs && |stack| >= c.arities[t].inputs ::
      && RunFrom(lib, c, s, 0, stack).Some?
      && RunFrom(lib, c, s, 0, stack) == RunFrom(lib, c, t, 0, stack)
  }

  /** The two sides of an identity, padded to one arity. */
  ghost function Sides(lib: Library, c: Certificate, s: SentenceIndex, t: SentenceIndex): (Tree, Tree)
    requires Covered(lib, c, s) && Covered(lib, c, t)
  {
    Aligned(LowerSentence(lib, c, s), LowerSentence(lib, c, t))
  }

  lemma AgreeDeeper(a: Tree, b: Tree, calls: Interp, stack: seq<Value>)
    requires Agree(a, b, calls) && |stack| >= a.Effect().inputs
    ensures RunOn(a, calls, stack) == RunOn(b, calls, stack)
  {
    hide Run;
    var cut := |stack| - a.Effect().inputs;
    assert Run(a, calls, stack[cut..]) == Run(b, calls, stack[cut..]);
  }

  lemma SettledRunsAlike(lib: Library, c: Certificate, s: SentenceIndex, t: SentenceIndex, spends: bool)
    requires Covered(lib, c, s) && Covered(lib, c, t)
    requires Settled(lib, c, spends, Sides(lib, c, s, t).0, Sides(lib, c, s, t).1)
    ensures Interchangeable(lib, c, s, t)
  {
    hide RunFrom; hide LowerSentence; hide Run; hide LibraryCalls; hide Tree.Effect; hide Tree.Ok; hide Agree;
    hide RunOn;
    hide Certifies; hide Widened;
    var calls := LibraryCalls(lib, c);
    var (l, r) := (LowerSentence(lib, c, s), LowerSentence(lib, c, t));
    var (n, m) := (l.Effect().inputs, r.Effect().inputs);
    forall stack: seq<Value> | |stack| >= n && |stack| >= m
      ensures RunFrom(lib, c, s, 0, stack).Some? && RunFrom(lib, c, s, 0, stack) == RunFrom(lib, c, t, 0, stack)
    {
      SentenceFaithful(lib, c, s, stack);
      SentenceFaithful(lib, c, t, stack);
      assert Agree(Aligned(l, r).0, Aligned(l, r).1, calls);
      AgreeDeeper(Aligned(l, r).0, Aligned(l, r).1, calls, stack);
      if n < m {
        WidenedRuns(l, m - n, calls, stack);
      } else {
        WidenedRuns(r, n - m, calls, stack);
      }
    }
  }

  /**
   * The goal an identity states, run under a strategy. When it closes, the two sentences leave the same
   * stack on every stack both can run on; when nothing was opened, they do so whatever the calls answer.
   * With no strategy written, and sides that only wire, push, call and branch, it closes exactly when nothing tells
   * them apart.
   */
  method ProveIdentity(
    ctx: Context, library: Library, ghost c: Certificate, lhs: SentenceIndex, rhs: SentenceIndex, strategy: Side,
    fuel: nat)
    returns (r: Outcome)
    requires ctx.Valid() && library.Closed() && Accepts(library, c)
    requires lhs < |library.sentences| && rhs < |library.sentences| && c.arities[lhs].Net() == c.arities[rhs].Net()
    requires forall w | strategy.Written? && w in Stones(strategy.steps) ::
      ctx.Has(w) && ctx.At(w).Ok() && Honest(library, c, ctx.At(w))
    modifies ctx
    ensures ctx.Grew()
    ensures r == Closed ==> Interchangeable(library, c, lhs, rhs)
    ensures r == Closed && (strategy.Written? ==> !Spends(strategy.steps)) ==>
      Same(Sides(library, c, lhs, rhs).0, Sides(library, c, lhs, rhs).1)
    ensures
      var (l, rt) := Sides(library, c, lhs, rhs);
      strategy.Omitted? && Opaque(l) && Opaque(rt) ==>
        (r == Closed <==> Alike(l, rt)) && (Straight(l) && Straight(rt) ==> (r == Closed <==> Same(l, rt)))
    ensures
      var (l, rt) := Sides(library, c, lhs, rhs);
      old(Answer(library, c, ctx.terms, WrittenOr(strategy, DefaultStrategy()), l, rt)) in {None, Some(r)}
  {
    hide Certifies; hide LowerSentence; hide Settled; hide Honest; hide Tree.Ok; hide Tree.Effect;
    hide Interchangeable; hide Stones; hide Spends;
    hide TreeAt; hide Ordered; hide Widened; hide Opaque; hide Straight; hide Alike; hide Answer;
    var prover := new Prover(library, c);
    prover.AcceptedIsAcyclic();
    var l := LowerInto(ctx, library, lhs, c.ranks, c);
    SentenceBeneath(library, c, lhs);
    var r' := LowerInto(ctx, library, rhs, c.ranks, c);
    SentenceBeneath(library, c, rhs);
    var goal := prover.Align(ctx, l.value, r'.value);
    DefaultIsSmall();
    var steps := WrittenOr(strategy, DefaultStrategy());
    ghost var sides := (ctx.At(goal.lhs), ctx.At(goal.rhs));
    AnswerStays(library, c, old(ctx.terms), ctx.terms, steps, sides.0, sides.1);
    r := prover.RunSteps(ctx, steps, goal, fuel);
    if r == Closed {
      SettledRunsAlike(library, c, lhs, rhs, Spends(steps));
      if !Spends(steps) {
        NeverOpened(library, c, sides.0, sides.1);
      }
    }
  }

  /** On the machine: from one stack, interchangeable sentences both finish, and with one stack. */
  lemma InterchangeableOnTheMachine(
    lib: Library, c: Certificate, s: SentenceIndex, t: SentenceIndex, stack: seq<Value>)
    requires Covered(lib, c, s) && Covered(lib, c, t) && Interchangeable(lib, c, s, t)
    requires |stack| >= c.arities[s].inputs && |stack| >= c.arities[t].inputs
    ensures exists out: seq<Value>, m: nat, n: nat ::
      && RunFor(lib, State(stack, [], s, 0), m) == Finished(out)
      && RunFor(lib, State(stack, [], t, 0), n) == Finished(out)
  {
    hide RunFrom; hide Certifies;
    var out := RunFrom(lib, c, s, 0, stack).value;
    var m := Finishes(lib, c, s, stack);
    var n := Finishes(lib, c, t, stack);
    assert RunFor(lib, State(stack, [], s, 0), m) == Finished(out);
    assert RunFor(lib, State(stack, [], t, 0), n) == Finished(out);
  }

  lemma Finishes(lib: Library, c: Certificate, s: SentenceIndex, stack: seq<Value>) returns (n: nat)
    requires Covered(lib, c, s) && RunFrom(lib, c, s, 0, stack).Some?
    ensures RunFor(lib, State(stack, [], s, 0), n) == Finished(RunFrom(lib, c, s, 0, stack).value)
  {
    hide RunFrom; hide RunFor; hide Justified; hide Turns; hide Library.Closed;
    var m := MachineRuns(lib, c, s, 0, stack, []);
    RunForNext(lib, State(stack, [], s, 0), State(RunFrom(lib, c, s, 0, stack).value, [], s, |lib.sentences[s]|), m);
    n := m + 1;
  }
}
