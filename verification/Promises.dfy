/** What an annotation promises, on the machine. */
module Promises {
  import opened Wrappers
  import opened Values
  import opened Prims
  import opened Terms
  import opened Libraries
  import opened Machine
  import opened Meanings
  import opened Lowering
  import opened Heights

  /**
   * Run on the values it declares, whatever they are and whatever is below them, the sentence finishes with as many as
   * it declares in their place, and what was below them is as it was.
   */
  ghost predicate KeepsTo(lib: Library, s: SentenceIndex, declared: Arity) {
    forall below: seq<Value>, args: seq<Value> | |args| == declared.inputs ::
      Finishes(lib, s, below, args, declared.outputs)
  }

  ghost predicate Finishes(lib: Library, s: SentenceIndex, below: seq<Value>, args: seq<Value>, outputs: nat) {
    exists n: nat, out: seq<Value> :: |out| == outputs && Ends(lib, s, below + args, n, below + out)
  }

  predicate Ends(lib: Library, s: SentenceIndex, stack: seq<Value>, n: nat, end: seq<Value>) {
    RunFor(lib, State(stack, [], s, 0), n) == Finished(end)
  }

  /** Accepted annotations are kept. */
  lemma MeetsKeeps(lib: Library, c: Certificate, s: SentenceIndex, declared: Arity)
    requires Covered(lib, c, s) && Meets(c.arities[s], declared)
    ensures KeepsTo(lib, s, declared)
  {
    hide Run; hide RunFor; hide LowerSentence; hide LibraryCalls; hide Certifies; hide Turns; hide Library.Closed;
    forall below: seq<Value>, args: seq<Value> | |args| == declared.inputs
      ensures Finishes(lib, s, below, args, declared.outputs)
    {
      var cut := declared.inputs - c.arities[s].inputs;
      var under, own := args[..cut], args[cut..];
      SentenceRuns(lib, c, s, below + under, own);
      var out := Run(LowerSentence(lib, c, s), LibraryCalls(lib, c), own);
      assert below + under + own == below + args && below + under + out == below + (under + out);
      var n: nat :| RunFor(lib, State(below + under + own, [], s, 0), n) == Finished(below + under + out);
      assert Ends(lib, s, below + args, n, below + (under + out));
    }
  }

  lemma {:induction false} FinishesOnce(lib: Library, c: State, m: nat, n: nat, a: seq<Value>, b: seq<Value>)
    requires RunFor(lib, c, m) == Finished(a) && RunFor(lib, c, n) == Finished(b)
    ensures a == b
    decreases m
  {
    if Step(lib, c).Running? {
      FinishesOnce(lib, Step(lib, c).state, m - 1, n - 1, a, b);
    }
  }

  /** A promise that is kept has the net change the sentence has. */
  lemma KeepsItsNet(lib: Library, c: Certificate, s: SentenceIndex, declared: Arity)
    requires Covered(lib, c, s) && KeepsTo(lib, s, declared)
    ensures c.arities[s].Net() == declared.Net()
  {
    hide Run; hide RunFor; hide LowerSentence; hide LibraryCalls; hide Certifies; hide Turns; hide Library.Closed;
    hide Ends;
    var a := c.arities[s];
    var below, args := Units(a.inputs), Units(declared.inputs);
    assert Finishes(lib, s, below, args, declared.outputs);
    var n: nat, out: seq<Value> :| |out| == declared.outputs && Ends(lib, s, below + args, n, below + out);
    MeetsKeeps(lib, c, s, a);
    var stack := below + args;
    var under, own := stack[..|stack| - a.inputs], stack[|stack| - a.inputs..];
    assert Finishes(lib, s, under, own, a.outputs);
    var m: nat, left: seq<Value> :| |left| == a.outputs && Ends(lib, s, under + own, m, under + left);
    assert under + own == stack;
    EndsOnce(lib, s, stack, m, n, under + left, below + out);
  }

  lemma EndsOnce(
    lib: Library, s: SentenceIndex, stack: seq<Value>, m: nat, n: nat, a: seq<Value>, b: seq<Value>)
    requires Ends(lib, s, stack, m, a) && Ends(lib, s, stack, n, b)
    ensures a == b
  {
    FinishesOnce(lib, State(stack, [], s, 0), m, n, a, b);
  }

  // ---- the heights the machine comes to are among those a sentence may come to ----

  function HeightOf(stack: Option<seq<Value>>): Option<nat> {
    match stack
    case Some(values) => Some(|values|)
    case None => None
  }

  /** Which arm is taken is the machine's to say, and the heights leave it open. */
  lemma MachineMayRun(
    lib: Library, ranks: map<SentenceIndex, nat>, c: Certificate, s: SentenceIndex, stack: seq<Value>)
    requires GoesDown(lib, ranks) && Certifies(lib, c) && s in c.arities
    ensures MayRun(lib, ranks, s, |stack|, HeightOf(RunFrom(lib, c, s, 0, stack)))
    decreases c.ranks[s], |lib.sentences[s]| + 1
  {
    RestMayRun(lib, ranks, c, s, 0, |stack|, stack);
  }

  lemma {:induction false} RestMayRun(
    lib: Library, ranks: map<SentenceIndex, nat>, c: Certificate, s: SentenceIndex, ip: nat, h: nat, stack: seq<Value>)
    requires GoesDown(lib, ranks) && Certifies(lib, c) && s in c.arities && ip <= |lib.sentences[s]|
    requires MayReach(lib, ranks, s, 0, ip, h, Some(|stack|))
    ensures MayRun(lib, ranks, s, h, HeightOf(RunFrom(lib, c, s, ip, stack)))
    decreases c.ranks[s], |lib.sentences[s]| - ip
  {
    hide RunInst; hide MayDo; hide GoesDown; hide MayReach;
    if ip < |lib.sentences[s]| {
      var next := RunInst(lib, c, s, ip, stack);
      InstMayDo(lib, ranks, c, s, ip, stack);
      Onto(lib, ranks, s, ip, h, |stack|, HeightOf(next));
      if next.Some? {
        RestMayRun(lib, ranks, c, s, ip + 1, h, next.value);
      } else {
        OutStays(lib, ranks, s, ip + 1, |lib.sentences[s]|, h);
      }
    }
  }

  lemma Onto(
    lib: Library, ranks: map<SentenceIndex, nat>, s: SentenceIndex, ip: nat, h: nat, m: nat, e: Option<nat>)
    requires GoesDown(lib, ranks) && s < |lib.sentences| && ip < |lib.sentences[s]|
    requires MayReach(lib, ranks, s, 0, ip, h, Some(m)) && MayDo(lib, ranks, s, ip, m, e)
    ensures MayReach(lib, ranks, s, 0, ip + 1, h, e)
  {
  }

  lemma {:induction false} OutStays(
    lib: Library, ranks: map<SentenceIndex, nat>, s: SentenceIndex, ip: nat, k: nat, h: nat)
    requires GoesDown(lib, ranks) && s < |lib.sentences| && ip <= k <= |lib.sentences[s]|
    requires MayReach(lib, ranks, s, 0, ip, h, None)
    ensures MayReach(lib, ranks, s, 0, k, h, None)
    decreases k
  {
    hide MayDo;
    if ip < k {
      OutStays(lib, ranks, s, ip, k - 1, h);
    }
  }

  lemma {:induction false} InstMayDo(
    lib: Library, ranks: map<SentenceIndex, nat>, c: Certificate, s: SentenceIndex, ip: nat, stack: seq<Value>)
    requires GoesDown(lib, ranks) && Certifies(lib, c) && s in c.arities && ip < |lib.sentences[s]|
    ensures MayDo(lib, ranks, s, ip, |stack|, HeightOf(RunInst(lib, c, s, ip, stack)))
    decreases c.ranks[s], |lib.sentences[s]| - ip, 0
  {
    hide MayReach; hide MayRun; hide RunFrom; hide GoesDown; hide Answer; hide PrefixEffect; hide Library.Closed;
    hide Acyclic;
    assert Justified(lib, c, s) && Lower(c, s, lib.sentences[s][ip]);
    CalleesBelow(lib, ranks, s, ip);
    var top := |stack| - 1;
    var inst := lib.sentences[s][ip];
    match inst {
      case Jump(t) =>
        assert t in inst.Callees();
        MachineMayRun(lib, ranks, c, t, stack);
      case Dip(t) =>
        assert t in inst.Callees();
        if top >= 0 { MachineMayRun(lib, ranks, c, t, stack[..top]); }
      case Branch(t, f) =>
        assert t in inst.Callees() && f in inst.Callees();
        if top >= 0 { MachineMayRun(lib, ranks, c, if stack[top].Truthy() then t else f, stack[..top]); }
      case _ =>
    }
  }
}
