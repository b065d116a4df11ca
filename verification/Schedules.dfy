/** Stacks of wires: what a run of steps leaves, described by the wires that lie there. */
module Schedules {
  import opened Wrappers
  import opened Values
  import opened Prims
  import opened Terms
  import opened Wires
  import opened Order
  import opened Folds
  import opened Diagrams
  import opened Landings

  /** A wire is made by pushing its literal, or by running its box, once for all the box's outputs. */
  datatype Key = Pushed(v: Value) | Boxed(op: Op, args: seq<ValId>)

  function KeyOf(node: ValNode): Option<Key> {
    match node
    case Var(_) => None
    case Lit(v) => Some(Pushed(v))
    case App(op, args) => Some(Boxed(op, args))
    case Proj(_, op, args) => Some(Boxed(op, args))
  }

  function OpTree(op: Op): (t: Tree)
    ensures t.Ok() && t.Effect() == op.Effect()
  {
    match op
    case Prim(p) => Tree.Op(p)
    case Call(target, arity) => Tree.Call(target, arity)
  }

  function KeyTree(key: Key): Tree {
    match key
    case Pushed(v) => Tree.Op(Push(v))
    case Boxed(op, _) => OpTree(op)
  }

  lemma OpRuns(op: Op, calls: Interp, args: seq<Value>)
    requires |args| == op.Effect().inputs
    ensures Run(OpTree(op), calls, args) == OpAnswer(op, calls, args)
  {
  }

  /** Copies, exchanges and discards, beside what they pass. */
  predicate Wiring(t: Tree) {
    match t
    case Id(_) => true
    case Drop(_) => true
    case Copy(_) => true
    case Op(p) => p.Swap?
    case Par(l, r) => Wiring(l) && Wiring(r)
    case _ => false
  }

  // ---- what lies on a stack ----

  ghost predicate NodesOk(vals: seq<ValNode>, stack: seq<ValNode>) {
    WiresOk(vals) && forall k | 0 <= k < |stack| :: stack[k].Below(|vals|)
  }

  ghost function NodeVal(vals: seq<ValNode>, node: ValNode, w: World): Value
    requires WiresOk(vals) && node.Below(|vals|)
  {
    match node
    case Var(i) => Input(w.env, i)
    case Lit(x) => x
    case App(op, args) => OpAnswer(op, w.calls, Vals(vals, args, w))[0]
    case Proj(index, op, args) => OpAnswer(op, w.calls, Vals(vals, args, w))[index]
  }

  lemma WireVal(vals: seq<ValNode>, v: ValId, w: World)
    requires WiresOk(vals) && v < |vals|
    ensures vals[v].Below(|vals|) && NodeVal(vals, vals[v], w) == Val(vals, v, w)
  {
    assert vals[v].Below(v);
    if vals[v].App? || vals[v].Proj? {
      ValOfApp(vals, v, w);
    }
  }

  ghost function NodeVals(vals: seq<ValNode>, stack: seq<ValNode>, w: World): (r: seq<Value>)
    requires NodesOk(vals, stack)
    ensures |r| == |stack| && forall k | 0 <= k < |stack| :: r[k] == NodeVal(vals, stack[k], w)
  {
    seq(|stack|, k requires 0 <= k < |stack| => NodeVal(vals, stack[k], w))
  }

  lemma NodeValsJoin(vals: seq<ValNode>, a: seq<ValNode>, b: seq<ValNode>, w: World)
    requires NodesOk(vals, a) && NodesOk(vals, b)
    ensures NodesOk(vals, a + b) && NodeVals(vals, a + b, w) == NodeVals(vals, a, w) + NodeVals(vals, b, w)
  {
  }

  function InputNodes(n: nat): (r: seq<ValNode>)
    ensures |r| == n
  {
    seq(n, i requires 0 <= i < n => Var(i))
  }

  lemma InputsLie(vals: seq<ValNode>, n: nat, w: World)
    requires WiresOk(vals) && |w.env| == n
    ensures NodesOk(vals, InputNodes(n)) && NodeVals(vals, InputNodes(n), w) == w.env
  {
  }

  // ---- the same steps run again on wires ----

  /** Wires of these nodes, one for one. */
  predicate Lie(more: seq<ValNode>, stack: seq<ValId>, nodes: seq<ValNode>) {
    |stack| == |nodes| && All(stack, |more|) && forall k | 0 <= k < |nodes| :: more[stack[k]] == nodes[k]
  }

  /** In every arena to come, run on wires of the first nodes, the term lands on wires of the second. */
  ghost predicate Retraces(vals: seq<ValNode>, t: Tree, from: seq<ValNode>, to: seq<ValNode>) {
    forall more: seq<ValNode>, s: seq<ValId>, out: seq<ValId> {:trigger LandsOn(more, t, s, out)} |
      GrowsInto(vals, more) && Lie(more, s, from) && LandsOn(more, t, s, out) :: Lie(more, out, to)
  }

  /** The same of exactly the term's inputs. */
  ghost predicate Turns(vals: seq<ValNode>, t: Tree, from: seq<ValNode>, to: seq<ValNode>) {
    && t.Ok() && |from| == t.Effect().inputs && |to| == t.Effect().outputs
    && forall more: seq<ValNode>, s: seq<ValId>, out: seq<ValId> {:trigger Lands(more, t, s, out)} |
      GrowsInto(vals, more) && Lie(more, s, from) && Lands(more, t, s, out) :: Lie(more, out, to)
  }

  lemma RetracesThen(vals: seq<ValNode>, l: Tree, r: Tree, a: seq<ValNode>, b: seq<ValNode>, c: seq<ValNode>)
    requires Retraces(vals, l, a, b) && Retraces(vals, r, b, c)
    ensures Retraces(vals, Composed(l, r), a, c)
  {
    hide LandsOn; hide Composed; hide Lie; hide Distinct; hide AllUnfolded;
    forall more: seq<ValNode>, s: seq<ValId>, out: seq<ValId> {:trigger LandsOn(more, Composed(l, r), s, out)} |
      GrowsInto(vals, more) && Lie(more, s, a) && LandsOn(more, Composed(l, r), s, out)
      ensures Lie(more, out, c)
    {
      var mid := ComposedLands(more, l, r, s, out);
    }
  }

  lemma TurnsRetraces(
    vals: seq<ValNode>, t: Tree, below: seq<ValNode>, ins: seq<ValNode>, outs: seq<ValNode>, high: seq<ValNode>)
    requires Turns(vals, t, ins, outs)
    ensures Retraces(vals, Beneath(t, |high|), below + ins + high, below + outs + high)
  {
    hide Distinct; hide AllUnfolded; hide Lands; hide Tree.Ok; hide Tree.Effect; hide LandsOn;
    var wide := Beneath(t, |high|);
    forall more: seq<ValNode>, s: seq<ValId>, out: seq<ValId> {:trigger LandsOn(more, wide, s, out)} |
      GrowsInto(vals, more) && Lie(more, s, below + ins + high) && LandsOn(more, wide, s, out)
      ensures Lie(more, out, below + outs + high)
    {
      var (cut, top) := (|below|, |below| + |ins|);
      BeneathLands(more, t, |high|, cut, s, out);
      var mid := out[cut..cut + |outs|];
      assert Lie(more, s[cut..top], ins) by {
        assert forall k | 0 <= k < |ins| :: (below + ins + high)[cut + k] == ins[k];
      }
      assert Lie(more, mid, outs);
      Rejoined(more, s, out, below, ins, outs, high);
    }
  }

  lemma Rejoined(
    more: seq<ValNode>, s: seq<ValId>, out: seq<ValId>, below: seq<ValNode>, ins: seq<ValNode>, outs: seq<ValNode>,
    high: seq<ValNode>)
    requires Lie(more, s, below + ins + high) && |out| == |below| + |outs| + |high|
    requires out[..|below|] == s[..|below|] && Lie(more, out[|below|..|below| + |outs|], outs)
    requires out[|below| + |outs|..] == s[|below| + |ins|..]
    ensures Lie(more, out, below + outs + high)
  {
    var nodes := below + outs + high;
    forall k | 0 <= k < |nodes| ensures out[k] < |more| && more[out[k]] == nodes[k] {
      if k < |below| {
        assert out[k] == s[k] && (below + ins + high)[k] == below[k];
      } else if k < |below| + |outs| {
        assert out[k] == out[|below|..|below| + |outs|][k - |below|];
      } else {
        var j := k - |below| - |outs|;
        assert out[k] == out[|below| + |outs|..][j] && s[|below| + |ins|..][j] == s[|below| + |ins| + j];
        assert (below + ins + high)[|below| + |ins| + j] == high[j];
      }
    }
  }

  /** Run with `k` wires passing on top, a term does what it does beneath them. */
  lemma BeneathLands(more: seq<ValNode>, t: Tree, k: nat, cut: nat, s: seq<ValId>, out: seq<ValId>)
    requires WiresOk(more) && t.Ok() && LandsOn(more, Beneath(t, k), s, out) && |s| == cut + t.Effect().inputs + k
    ensures |out| == cut + t.Effect().outputs + k && out[..cut] == s[..cut]
    ensures out[cut + t.Effect().outputs..] == s[cut + t.Effect().inputs..]
    ensures Lands(more, t, s[cut..cut + t.Effect().inputs], out[cut..cut + t.Effect().outputs])
  {
    hide Lands; hide Tree.Ok; hide Tree.Effect;
    BeneathShape(t, k);
    var (n, m) := (t.Effect().inputs, t.Effect().outputs);
    var (top, left) := (s[cut..], out[cut..]);
    if k > 0 {
      PassingLands(more, t, k, top, left);
      assert top[..n] == s[cut..cut + n] && left[..m] == out[cut..cut + m];
      assert top[n..] == s[cut + n..] && left[m..] == out[cut + m..];
    } else {
      LandsShape(more, t, top, left);
      assert top == s[cut..cut + n] && left == out[cut..cut + m];
      assert s[cut + n..] == [] && out[cut + m..] == [];
    }
  }

  lemma LandsShape(more: seq<ValNode>, t: Tree, s: seq<ValId>, out: seq<ValId>)
    requires WiresOk(more) && Lands(more, t, s, out)
    ensures |s| == t.Effect().inputs && |out| == t.Effect().outputs
  {
  }

  lemma PassingLands(more: seq<ValNode>, t: Tree, k: nat, s: seq<ValId>, out: seq<ValId>)
    requires WiresOk(more) && Lands(more, Tree.Par(t, Tree.Id(k)), s, out)
    ensures |s| == t.Effect().inputs + k && |out| == t.Effect().outputs + k
    ensures Lands(more, t, s[..t.Effect().inputs], out[..t.Effect().outputs])
    ensures out[t.Effect().outputs..] == s[t.Effect().inputs..]
  {
    hide Answers;
    assert Lands(more, Tree.Id(k), s[t.Effect().inputs..], out[t.Effect().outputs..]);
  }

  lemma CopyTurns(vals: seq<ValNode>, x: ValNode)
    ensures Turns(vals, Tree.Copy(1), [x], [x] + [x])
  {
  }

  lemma SwapTurns(vals: seq<ValNode>, x: ValNode, y: ValNode)
    ensures Turns(vals, Tree.Op(Swap), [x, y], [y, x])
  {
  }

  lemma DropTurns(vals: seq<ValNode>, work: seq<ValNode>)
    ensures Turns(vals, Tree.Drop(|work|), work, [])
  {
  }

  lemma PushTurns(vals: seq<ValNode>, x: Value)
    ensures Turns(vals, Tree.Op(Push(x)), [], [Lit(x)])
  {
  }

  /** A box nothing folds is found again on the wires of its arguments. */
  lemma BoxTurns(vals: seq<ValNode>, op: Op, args: seq<ValId>)
    requires WiresOk(vals) && Box(op, args, |vals|) && Unfolded(vals, op, args)
    ensures Turns(vals, OpTree(op), ArgNodes(vals, args), OutNodes(op, args))
  {
    hide Answers; hide Unfolded;
    forall more: seq<ValNode>, s: seq<ValId>, out: seq<ValId> {:trigger Lands(more, OpTree(op), s, out)} |
      GrowsInto(vals, more) && Lie(more, s, ArgNodes(vals, args)) && Lands(more, OpTree(op), s, out)
      ensures Lie(more, out, OutNodes(op, args))
    {
      forall k | 0 <= k < |args| ensures s[k] == args[k] {
        assert more[s[k]] == vals[args[k]] == more[args[k]];
      }
      assert s == args;
      UnfoldedStays(vals, more, op, args);
      assert Answers(more, op, args, out);
      UnfoldedAnswers(more, op, args, out);
    }
  }

  // ---- what a run of steps does ----

  /** The steps as one tree: each composed after all before it, whichever side is narrower widened. */
  function PadFold(trees: seq<Tree>): Tree
    requires trees != []
  {
    var last := |trees| - 1;
    if last == 0 then trees[0] else Composed(PadFold(trees[..last]), trees[last])
  }

  /** From the inputs, the steps leave what these nodes describe. */
  ghost predicate Does(vals: seq<ValNode>, inputs: nat, trees: seq<Tree>, stack: seq<ValNode>) {
    && NodesOk(vals, stack)
    && (trees == [] ==> stack == InputNodes(inputs))
    && (trees != [] ==> Leaves(vals, inputs, PadFold(trees), stack))
  }

  ghost predicate Leaves(vals: seq<ValNode>, inputs: nat, t: Tree, stack: seq<ValNode>)
    requires NodesOk(vals, stack)
  {
    && t.Ok() && t.Effect().inputs <= inputs && |stack| == inputs + t.Effect().Net()
    && (forall w: World | |w.env| == inputs :: RunOn(t, w.calls, w.env) == NodeVals(vals, stack, w))
    && Retraces(vals, t, InputNodes(inputs), stack)
  }

  /** One step takes the stack from one description to another. */
  ghost predicate Takes(vals: seq<ValNode>, inputs: nat, t: Tree, from: seq<ValNode>, to: seq<ValNode>) {
    && NodesOk(vals, from) && NodesOk(vals, to)
    && t.Ok() && t.Effect().inputs <= |from| && |to| == |from| + t.Effect().Net()
    && (forall w: World | |w.env| == inputs :: RunOn(t, w.calls, NodeVals(vals, from, w)) == NodeVals(vals, to, w))
    && Retraces(vals, t, from, to)
  }

  lemma ComposedNet(l: Tree, r: Tree, inputs: nat)
    requires l.Ok() && r.Ok() && l.Effect().inputs <= inputs && r.Effect().inputs <= inputs + l.Effect().Net()
    ensures Composed(l, r).Ok() && Composed(l, r).Effect().inputs <= inputs
    ensures Composed(l, r).Effect().Net() == l.Effect().Net() + r.Effect().Net()
    ensures r.Effect().inputs == inputs + l.Effect().Net() ==> Composed(l, r).Effect().inputs == inputs
  {
    hide Tree.Ok; hide Tree.Effect;
    var (have, want) := (l.Effect().outputs, r.Effect().inputs);
    if have < want {
      ComposeShape(Widened(l, want - have), r);
    } else {
      ComposeShape(l, Widened(r, have - want));
    }
  }

  lemma StepAdded(vals: seq<ValNode>, inputs: nat, trees: seq<Tree>, t: Tree, from: seq<ValNode>, to: seq<ValNode>)
    requires Does(vals, inputs, trees, from) && Takes(vals, inputs, t, from, to)
    ensures Does(vals, inputs, trees + [t], to)
    ensures t.Effect().inputs == |from| ==> PadFold(trees + [t]).Effect().inputs == inputs
  {
    hide Run; hide RunOn; hide Composed; hide Tree.Ok; hide Tree.Effect; hide Retraces;
    if trees == [] {
      assert trees + [t] == [t] && PadFold([t]) == t;
      forall w: World | |w.env| == inputs ensures RunOn(t, w.calls, w.env) == NodeVals(vals, to, w) {
        InputsLie(vals, inputs, w);
      }
      assert Leaves(vals, inputs, t, to);
    } else {
      var before := PadFold(trees);
      assert (trees + [t])[..|trees|] == trees;
      assert PadFold(trees + [t]) == Composed(before, t);
      ComposedNet(before, t, inputs);
      RetracesThen(vals, before, t, InputNodes(inputs), from, to);
      forall w: World | |w.env| == inputs
        ensures RunOn(Composed(before, t), w.calls, w.env) == NodeVals(vals, to, w)
      {
        ComposedRuns(before, t, w.calls, w.env);
      }
    }
  }

  // ---- the steps a schedule is made of ----

  /** A term with `k` values passed on top of it. */
  lemma UnderRuns(t: Tree, k: nat, calls: Interp, below: seq<Value>, args: seq<Value>, high: seq<Value>)
    requires t.Ok() && |args| == t.Effect().inputs && |high| == k
    ensures RunOn(Tree.Par(t, Tree.Id(k)), calls, below + args + high) == below + Run(t, calls, args) + high
  {
    hide Run;
    assert below + args + high == below + (args + high);
    RunOnSplit(Tree.Par(t, Tree.Id(k)), calls, below, args + high);
    ParRuns(t, Tree.Id(k), calls, args, high);
    IdRuns(k, calls, high);
    Associative(below, Run(t, calls, args), high);
  }

  function Beneath(t: Tree, k: nat): Tree {
    if k == 0 then t else Tree.Par(t, Tree.Id(k))
  }

  lemma BeneathShape(t: Tree, k: nat)
    requires t.Ok()
    ensures Beneath(t, k).Ok() && Beneath(t, k).Effect() == Arity(t.Effect().inputs + k, t.Effect().outputs + k)
  {
  }

  lemma BeneathRuns(t: Tree, k: nat, calls: Interp, below: seq<Value>, args: seq<Value>, high: seq<Value>)
    requires t.Ok() && |args| == t.Effect().inputs && |high| == k
    ensures Beneath(t, k).Ok() && Beneath(t, k).Effect() == Arity(t.Effect().inputs + k, t.Effect().outputs + k)
    ensures RunOn(Beneath(t, k), calls, below + args + high) == below + Run(t, calls, args) + high
  {
    if k == 0 {
      assert below + args + high == below + args && high == [];
      RunOnSplit(t, calls, below, args);
    } else {
      UnderRuns(t, k, calls, below, args, high);
    }
  }

  /** A copy made where the value lies. */
  lemma CopyTakes(vals: seq<ValNode>, inputs: nat, below: seq<ValNode>, x: ValNode, high: seq<ValNode>)
    requires NodesOk(vals, below) && NodesOk(vals, [x]) && NodesOk(vals, high)
    ensures Takes(vals, inputs, Beneath(Tree.Copy(1), |high|), below + [x] + high, below + [x] + [x] + high)
  {
    hide Turns; hide Retraces; hide Run; hide RunOn;
    var t := Beneath(Tree.Copy(1), |high|);
    BeneathShape(Tree.Copy(1), |high|);
    CopyTurns(vals, x);
    TurnsRetraces(vals, Tree.Copy(1), below, [x], [x] + [x], high);
    assert below + ([x] + [x]) + high == below + [x] + [x] + high;
    forall w: World | |w.env| == inputs
      ensures RunOn(t, w.calls, NodeVals(vals, below + [x] + high, w)) == NodeVals(vals, below + [x] + [x] + high, w)
    {
      CopyRuns(vals, below, x, high, w);
    }
  }

  lemma CopyRuns(vals: seq<ValNode>, below: seq<ValNode>, x: ValNode, high: seq<ValNode>, w: World)
    requires NodesOk(vals, below) && NodesOk(vals, [x]) && NodesOk(vals, high)
    ensures Beneath(Tree.Copy(1), |high|).Ok()
    ensures |below + [x] + high| >= Beneath(Tree.Copy(1), |high|).Effect().inputs
    ensures RunOn(Beneath(Tree.Copy(1), |high|), w.calls, NodeVals(vals, below + [x] + high, w))
      == NodeVals(vals, below + [x] + [x] + high, w)
  {
    hide Run; hide RunOn;
    BeneathShape(Tree.Copy(1), |high|);
    var a, b, c := NodeVals(vals, below, w), NodeVals(vals, [x], w), NodeVals(vals, high, w);
    NodeValsJoin(vals, below, [x], w);
    NodeValsJoin(vals, below + [x], high, w);
    NodeValsJoin(vals, below + [x], [x], w);
    NodeValsJoin(vals, below + [x] + [x], high, w);
    BeneathRuns(Tree.Copy(1), |high|, w.calls, a, b, c);
    CopyAnswers(w.calls, b);
    assert a + (b + b) + c == a + b + b + c;
  }

  lemma CopyAnswers(calls: Interp, s: seq<Value>)
    requires |s| == 1
    ensures Run(Tree.Copy(1), calls, s) == s + s
  {
  }

  lemma SwapAnswers(calls: Interp, x: Value, y: Value)
    ensures Run(Tree.Op(Swap), calls, [x, y]) == [y, x]
  {
  }

  /** One exchange, with the rest passing on top. */
  lemma SwapTakes(vals: seq<ValNode>, inputs: nat, below: seq<ValNode>, x: ValNode, y: ValNode, high: seq<ValNode>)
    requires NodesOk(vals, below) && NodesOk(vals, [x, y]) && NodesOk(vals, high)
    ensures Takes(vals, inputs, Beneath(Tree.Op(Swap), |high|), below + [x, y] + high, below + [y, x] + high)
  {
    hide Turns; hide Retraces; hide Run; hide RunOn;
    var t := Beneath(Tree.Op(Swap), |high|);
    BeneathShape(Tree.Op(Swap), |high|);
    SwapTurns(vals, x, y);
    TurnsRetraces(vals, Tree.Op(Swap), below, [x, y], [y, x], high);
    assert [x, y][0].Below(|vals|) && [x, y][1].Below(|vals|);
    assert NodesOk(vals, [y, x]);
    forall w: World | |w.env| == inputs
      ensures RunOn(t, w.calls, NodeVals(vals, below + [x, y] + high, w)) == NodeVals(vals, below + [y, x] + high, w)
    {
      var a, c := NodeVals(vals, below, w), NodeVals(vals, high, w);
      var (u, v) := (NodeVal(vals, x, w), NodeVal(vals, y, w));
      assert NodeVals(vals, [x, y], w) == [u, v] && NodeVals(vals, [y, x], w) == [v, u];
      NodeValsJoin(vals, below, [x, y], w);
      NodeValsJoin(vals, below + [x, y], high, w);
      NodeValsJoin(vals, below, [y, x], w);
      NodeValsJoin(vals, below + [y, x], high, w);
      BeneathRuns(Tree.Op(Swap), |high|, w.calls, a, [u, v], c);
      SwapAnswers(w.calls, u, v);
    }
  }

  lemma PushTakes(vals: seq<ValNode>, inputs: nat, stack: seq<ValNode>, x: Value)
    requires NodesOk(vals, stack)
    ensures Takes(vals, inputs, Tree.Op(Push(x)), stack, stack + [Lit(x)])
  {
    hide Turns; hide Retraces; hide Run;
    assert NodesOk(vals, [Lit(x)]);
    PushTurns(vals, x);
    TurnsRetraces(vals, Tree.Op(Push(x)), stack, [], [Lit(x)], []);
    assert stack + [] + [] == stack && stack + [Lit(x)] + [] == stack + [Lit(x)];
    forall w: World | |w.env| == inputs
      ensures RunOn(Tree.Op(Push(x)), w.calls, NodeVals(vals, stack, w)) == NodeVals(vals, stack + [Lit(x)], w)
    {
      var s := NodeVals(vals, stack, w);
      NodeValsJoin(vals, stack, [Lit(x)], w);
      assert s + [] == s;
      RunOnSplit(Tree.Op(Push(x)), w.calls, s, []);
      PushAnswers(w.calls, x);
      assert NodeVals(vals, [Lit(x)], w) == [x];
    }
  }

  lemma PushAnswers(calls: Interp, x: Value)
    ensures Run(Tree.Op(Push(x)), calls, []) == [x]
  {
  }

  /** The nodes a box leaves. */
  function OutNodes(op: Op, args: seq<ValId>): (r: seq<ValNode>)
    ensures |r| == op.Effect().outputs
  {
    if op.Effect().outputs == 1 then [App(op, args)]
    else seq(op.Effect().outputs, k requires 0 <= k < op.Effect().outputs => Proj(k, op, args))
  }

  function ArgNodes(vals: seq<ValNode>, args: seq<ValId>): (r: seq<ValNode>)
    requires All(args, |vals|)
    ensures |r| == |args| && forall k | 0 <= k < |args| :: r[k] == vals[args[k]]
  {
    seq(|args|, k requires 0 <= k < |args| => vals[args[k]])
  }

  /** A box on its arguments leaves what its wires carry. */
  lemma BoxTakes(vals: seq<ValNode>, inputs: nat, below: seq<ValNode>, op: Op, args: seq<ValId>)
    requires NodesOk(vals, below) && Box(op, args, |vals|) && Unfolded(vals, op, args)
    ensures Takes(vals, inputs, OpTree(op), below + ArgNodes(vals, args), below + OutNodes(op, args))
  {
    hide Turns; hide Retraces; hide Run; hide OpAnswer; hide RunOn; hide Unfolded; hide NodeVals;
    var (ins, outs) := (ArgNodes(vals, args), OutNodes(op, args));
    ArgsAreNodes(vals, op, args);
    BoxTurns(vals, op, args);
    TurnsRetraces(vals, OpTree(op), below, ins, outs, []);
    assert below + ins + [] == below + ins && below + outs + [] == below + outs;
    forall w: World | |w.env| == inputs
      ensures RunOn(OpTree(op), w.calls, NodeVals(vals, below + ins, w)) == NodeVals(vals, below + outs, w)
    {
      BoxRuns(vals, below, op, args, w);
    }
  }

  lemma ArgsAreNodes(vals: seq<ValNode>, op: Op, args: seq<ValId>)
    requires WiresOk(vals) && Box(op, args, |vals|)
    ensures NodesOk(vals, ArgNodes(vals, args)) && NodesOk(vals, OutNodes(op, args))
  {
    forall k | 0 <= k < |args| ensures ArgNodes(vals, args)[k].Below(|vals|) {
      assert vals[args[k]].Below(args[k]);
    }
  }

  lemma BoxRuns(vals: seq<ValNode>, below: seq<ValNode>, op: Op, args: seq<ValId>, w: World)
    requires NodesOk(vals, below) && Box(op, args, |vals|)
    requires NodesOk(vals, ArgNodes(vals, args)) && NodesOk(vals, OutNodes(op, args))
    ensures RunOn(OpTree(op), w.calls, NodeVals(vals, below + ArgNodes(vals, args), w))
      == NodeVals(vals, below + OutNodes(op, args), w)
  {
    hide Run; hide OpAnswer;
    var (ins, outs) := (ArgNodes(vals, args), OutNodes(op, args));
    NodeValsJoin(vals, below, ins, w);
    NodeValsJoin(vals, below, outs, w);
    ArgsCarry(vals, args, w);
    RunOnSplit(OpTree(op), w.calls, NodeVals(vals, below, w), Vals(vals, args, w));
    OpRuns(op, w.calls, Vals(vals, args, w));
    assert NodeVals(vals, outs, w) == OpAnswer(op, w.calls, Vals(vals, args, w));
  }

  lemma ArgsCarry(vals: seq<ValNode>, args: seq<ValId>, w: World)
    requires WiresOk(vals) && All(args, |vals|) && NodesOk(vals, ArgNodes(vals, args))
    ensures NodeVals(vals, ArgNodes(vals, args), w) == Vals(vals, args, w)
  {
    forall k | 0 <= k < |args| ensures NodeVal(vals, vals[args[k]], w) == Val(vals, args[k], w) {
      WireVal(vals, args[k], w);
    }
  }

  /** Everything under the top `n` values discarded. */
  lemma DropTakes(vals: seq<ValNode>, inputs: nat, work: seq<ValNode>, kept: seq<ValNode>, below: seq<ValNode>)
    requires NodesOk(vals, below) && NodesOk(vals, work) && NodesOk(vals, kept)
    ensures Takes(vals, inputs, Beneath(Tree.Drop(|work|), |kept|), below + work + kept, below + kept)
  {
    hide Turns; hide Retraces; hide Run; hide RunOn;
    var t := Beneath(Tree.Drop(|work|), |kept|);
    BeneathShape(Tree.Drop(|work|), |kept|);
    DropTurns(vals, work);
    TurnsRetraces(vals, Tree.Drop(|work|), below, work, [], kept);
    assert below + [] + kept == below + kept;
    forall w: World | |w.env| == inputs
      ensures RunOn(t, w.calls, NodeVals(vals, below + work + kept, w)) == NodeVals(vals, below + kept, w)
    {
      var a, b, c := NodeVals(vals, below, w), NodeVals(vals, work, w), NodeVals(vals, kept, w);
      NodeValsJoin(vals, below, work, w);
      NodeValsJoin(vals, below + work, kept, w);
      NodeValsJoin(vals, below, kept, w);
      BeneathRuns(Tree.Drop(|work|), |kept|, w.calls, a, b, c);
      DropAnswers(w.calls, b);
      assert a + [] + c == a + c;
    }
  }

  lemma DropAnswers(calls: Interp, s: seq<Value>)
    ensures Run(Tree.Drop(|s|), calls, s) == []
  {
  }
}
