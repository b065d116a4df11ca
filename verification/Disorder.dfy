/** Where the order of conditions is lost: a literal written through a then arm. */
module Disorder {
  import opened Wrappers
  import opened Values
  import opened Prims
  import opened Wires
  import opened Order
  import opened Supports
  import opened Folds
  import opened Diagrams

  /**
   * Wire 4 is `x = add(v1, v2)`, wire 5 is `y = add(v0, v1)`; the tests are 6, `equal(5, x)`, 7, `equal(y, x)`,
   * and 8, `equal(5, y)`. Diagram 2 decides on 7, diagram 3 on 8, and diagram 4 on 6 above diagram 3.
   */
  function Crossing(): Arena {
    var add, equal := Op.Prim(Prim.Add), Op.Prim(Prim.Equal);
    Arena(
      [Var(0), Var(1), Var(2), Lit(Int(5)), App(add, [1, 2]), App(add, [0, 1]),
       App(equal, [3, 4]), App(equal, [5, 4]), App(equal, [3, 5])],
      [Leaf([0]), Leaf([1]), DiagNode.Branch(7, 0, 1), DiagNode.Branch(8, 0, 1), DiagNode.Branch(6, 3, 1)])
  }

  lemma CrossingWires()
    ensures var vals := Crossing().vals;
      && WiresOk(vals) && |vals| == 9 && vals[0] == Var(0) && vals[1] == Var(1) && vals[3] == Lit(Int(5))
      && vals[4] == App(Op.Prim(Prim.Add), [1, 2]) && vals[5] == App(Op.Prim(Prim.Add), [0, 1])
      && vals[6] == App(Op.Prim(Prim.Equal), [3, 4]) && vals[7] == App(Op.Prim(Prim.Equal), [5, 4])
      && vals[8] == App(Op.Prim(Prim.Equal), [3, 5])
  {
  }

  lemma CrossingDistinct()
    ensures Distinct(Crossing().vals) && DistinctDiags(Crossing().diags)
  {
  }

  lemma CrossingDiags()
    ensures var a := Crossing();
      && a.Ok() && |a.diags| == 5 && a.diags[0] == Leaf([0]) && a.diags[1] == Leaf([1])
      && a.diags[2] == DiagNode.Branch(7, 0, 1) && a.diags[3] == DiagNode.Branch(8, 0, 1)
      && a.diags[4] == DiagNode.Branch(6, 3, 1)
  {
    CrossingWires();
    hide WiresOk;
    var a := Crossing();
    assert DiagsOk(a.diags, 9);
  }

  /** `equal(5, y)` comes before `equal(5, x)`, and that before `equal(y, x)`. */
  lemma CrossingOrder()
    ensures var a := Crossing();
      && WiresOk(a.vals) && |a.vals| == 9 && CmpVal(a.vals, 3, 5).Before?
      && CmpVal(a.vals, 8, 6).Before? && CmpVal(a.vals, 6, 7).Before?
  {
    CrossingWires();
    hide Crossing; hide CmpString; hide WiresOk;
    var (vals, add, equal) := (Crossing().vals, Op.Prim(Prim.Add), Op.Prim(Prim.Equal));
    OpOrder(add, add, add);
    OpOrder(equal, equal, equal);
    hide CmpOp;
    assert CmpVal(vals, 5, 4).Before? by {
      assert CmpVal(vals, 0, 1).Before?;
      assert CmpArgs(vals, 5, [0, 1], [1, 2]).Before?;
    }
    assert CmpVal(vals, 8, 6).Before? by {
      assert CmpArgs(vals, 8, [5], [4]).Before?;
      assert [3, 5][1..] == [5] && [3, 4][1..] == [4];
      assert CmpArgs(vals, 8, [3, 5], [3, 4]).Before?;
    }
    assert CmpVal(vals, 6, 7).Before? by {
      assert CmpVal(vals, 3, 5).Before?;
      assert CmpArgs(vals, 6, [3, 4], [5, 4]).Before?;
    }
  }

  lemma CrossingFolds()
    ensures var vals := Crossing().vals;
      && WiresOk(vals) && |vals| == 9 && EqualToLiteral(vals, 6) == Some((4, 3))
      && Answers(vals, Op.Prim(Prim.Equal), [5, 3], [8])
  {
    CrossingWires();
    CrossingOrder();
    CrossingDistinct();
    hide Crossing; hide WiresOk; hide Distinct; hide CmpVal;
    var vals := Crossing().vals;
    WireFlips(vals, 3, 5);
    assert Literals(vals, [5, 3]).None?;
    assert InOrder(vals, Prim.Equal, [5, 3]) == [3, 5];
  }

  /** Where `equal(5, x)` holds, `equal(5, y)` is `equal(y, x)`. */
  lemma CrossingMeans(w: World)
    requires WiresOk(Crossing().vals) && |Crossing().vals| == 9 && Val(Crossing().vals, 6, w).Truthy()
    ensures Val(Crossing().vals, 8, w) == Val(Crossing().vals, 7, w)
  {
    CrossingWires();
    CrossingFolds();
    hide Crossing; hide WiresOk; hide Answers;
    var vals := Crossing().vals;
    LiteralHoldsAlways(vals, 6);
    hide Val; hide EqualToLiteral;
    ValOfApp(vals, 7, w);
    ValOfApp(vals, 8, w);
    assert Val(vals, 4, w) == Val(vals, 3, w);
    var (five, y) := (Val(vals, 3, w), Val(vals, 5, w));
    assert Vals(vals, [5, 4], w) == [y, five] && Vals(vals, [3, 5], w) == [five, y];
    CommutativeAnswers(Prim.Equal, five, y);
  }

  /** Diagram 3 reads `y` and the inputs, as diagram 2 does, and no longer `x`. */
  lemma CrossingReads()
    ensures var a := Crossing();
      a.Ok() && |a.vals| == 9 && |a.diags| == 5 && ReadsNoMore(a, 2, 3) && Spent(a, 6, 3)
  {
    CrossingWires();
    CrossingDiags();
    CrossingFolds();
    hide Crossing; hide WiresOk; hide Answers; hide EqualToLiteral;
    var a := Crossing();
    forall x: ValId | x < |a.vals| && Pure(a.vals, x) && Reads(a, 3, x) ensures Reads(a, 2, x) && x != 4 {
      CrossingUnder(x);
      assert Beneath(a.vals, 0, x) || Beneath(a.vals, 1, x) || Beneath(a.vals, 5, x);
      assert a.vals[7].args[0] == 5 && (Beneath(a.vals, 5, x) ==> Beneath(a.vals, 7, x));
    }
  }

  /** Beneath the test in diagram 3 are the literal, `y` and what `y` is computed from. */
  lemma CrossingUnder(x: ValId)
    requires WiresOk(Crossing().vals) && |Crossing().vals| == 9
    ensures var vals := Crossing().vals;
      Beneath(vals, 8, x) ==> x == 8 || x == 3 || Beneath(vals, 5, x)
    ensures var vals := Crossing().vals; !Pure(vals, 8) && !Pure(vals, 3)
    ensures var vals := Crossing().vals; !Beneath(vals, 5, 4) && !Beneath(vals, 0, 4) && !Beneath(vals, 1, 4)
  {
    CrossingWires();
    hide Crossing; hide WiresOk;
    var vals := Crossing().vals;
    assert vals[8].args[0] == 3 && vals[8].args[1] == 5 && !Pure(vals, 3);
  }

  lemma CrossingRestricts()
    ensures Crossing().Ok() && Restricts(Crossing(), 2, 6, true, 3) && Restricts(Crossing(), 1, 6, false, 1)
  {
    CrossingWires();
    CrossingDiags();
    CrossingFolds();
    CrossingReads();
    hide ReadsNoMore; hide Spent;
    assert ReadsNoMore(Crossing(), 1, 1) by { SameReads(Crossing(), 1); }
    hide Crossing; hide WiresOk; hide Answers; hide Val; hide EqualToLiteral;
    var a := Crossing();
    forall w: World | Val(a.vals, 6, w).Truthy() ensures Diag(a, 3, w) == Diag(a, 2, w) {
      CrossingMeans(w);
    }
  }

  lemma SameReads(a: Arena, d: DiagId)
    requires a.Ok() && d < |a.diags|
    ensures ReadsNoMore(a, d, d)
  {
  }

  lemma CrossingSorts()
    ensures var a := Crossing();
      a.Ok() && |a.vals| == 9 && |a.diags| == 5 && NodesSorted(a) && Sorted(a, 2) && AllAfter(a, 6, 2) && !Sorted(a, 4)
  {
    CrossingWires();
    CrossingDiags();
    CrossingOrder();
    CrossingFolds();
    CrossingDistinct();
    hide Crossing; hide WiresOk; hide Answers; hide CmpVal; hide Distinct;
    var a := Crossing();
    WireFlips(a.vals, 8, 6);
    hide NodesSorted; hide Sorted;
    assert Tests(a.diags, 2) == {7} && 8 in Tests(a.diags, 3);
    assert !AllAfter(a, 6, 3);
  }

  /**
   * Order does not survive a test against a literal. `equal(5, x)` proves `5` for `x`, which turns `equal(y, x)`
   * into `equal(5, y)`; so deciding on `equal(5, x)` between diagram 2, which is sorted and all after it, and a
   * leaf, takes a node that decides on `equal(5, y)` underneath, though that comes before.
   */
  lemma SubstitutionUnsorts()
    ensures var a := Crossing();
      && a.Ok() && |a.vals| == 9 && |a.diags| == 5 && Distinct(a.vals) && DistinctDiags(a.diags) && NodesSorted(a)
      && Sorted(a, 2) && AllAfter(a, 6, 2) && EqualToLiteral(a.vals, 6) == Some((4, 3))
      && Answers(a.vals, Op.Prim(Prim.Equal), [5, 3], [8]) && Restricts(a, 2, 6, true, 3)
      && Decides(a, 6, 2, 1, 4) && !Sorted(a, 4)
  {
    CrossingWires();
    CrossingDiags();
    CrossingFolds();
    CrossingDistinct();
    CrossingSorts();
    CrossingRestricts();
    hide Crossing; hide WiresOk; hide Answers; hide Distinct; hide DistinctDiags; hide NodesSorted; hide Sorted;
    hide AllAfter; hide Restricts; hide Decides; hide EqualToLiteral;
    RestrictedDecides(Crossing(), 6, 2, 1, 3, 1, 4);
  }
}
