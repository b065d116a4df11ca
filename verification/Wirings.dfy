/** Programs as boxes and links, and what a graph means with every operation left opaque. */
module Wirings {
  import opened Wrappers
  import opened Values
  import opened Prims
  import opened Terms

  type NodeId = nat
  type BranchId = nat

  /** A place values come from: an input of the graph, or a port of a box. */
  datatype Source = Input(i: nat) | Port(node: NodeId, port: nat)

  /** Where an output port is read: a boundary output, or an input port of a box. */
  datatype Sink = Output(i: nat) | Slot(node: NodeId, port: nat)

  /** What a box is: a term's leaves, and the two ends of a branch. */
  datatype Kind =
    | Id(n: nat)
    | Copy(n: nat)
    | Drop(n: nat)
    | Op(prim: Prim)
    | Call(target: SentenceIndex, arity: Arity)
    | Fork(n: nat, branch: BranchId)
    | Select(n: nat, branch: BranchId)
  {
    function Effect(): Arity {
      match this
      case Id(n) => Arity(n, n)
      case Copy(n) => Arity(n, 2 * n)
      case Drop(n) => Arity(n, 0)
      case Op(prim) => prim.Effect()
      case Call(_, arity) => arity
      case Fork(n, _) => Arity(n + 1, 2 * n)
      case Select(n, _) => Arity(2 * n + 1, n)
    }
  }

  datatype Box = Box(kind: Kind, inputs: seq<Source>)

  /**
   * A graph read from its readers' end: who each port reads. The lists of who reads each port are the
   * same links written down again, and `Graphs.Graph` is where both are kept.
   */
  datatype Wiring = Wiring(boxes: seq<Option<Box>>, inputs: nat, outputs: seq<Source>, branches: nat) {
    function Effect(): Arity {
      Arity(inputs, |outputs|)
    }

    predicate Live(id: NodeId) {
      id < |boxes| && boxes[id].Some?
    }

    function At(id: NodeId): Box
      requires Live(id)
    {
      boxes[id].value
    }

    predicate Has(src: Source) {
      match src
      case Input(i) => i < inputs
      case Port(node, port) => Live(node) && port < At(node).kind.Effect().outputs
    }

    /** What one sink reads, if it is a sink of this graph. */
    function Reads(sink: Sink): Option<Source> {
      match sink
      case Output(i) => if i < |outputs| then Some(outputs[i]) else None
      case Slot(node, port) => if Live(node) && port < |At(node).inputs| then Some(At(node).inputs[port]) else None
    }

    /** Every box has its kind's ports, and everything read is there to be read. */
    ghost predicate Sound() {
      && (forall id | Live(id) :: |At(id).inputs| == At(id).kind.Effect().inputs)
      && (forall sink | Reads(sink).Some? :: Has(Reads(sink).value))
    }

    /** Producers come before what reads them. */
    ghost predicate Ranked(rank: seq<nat>) {
      && |rank| == |boxes|
      && forall id: NodeId, port | Live(id) && 0 <= port < |At(id).inputs| ::
        ReadsBelow(rank, At(id).inputs[port], rank[id])
    }

    ghost predicate Acyclic() {
      exists rank: seq<nat> :: Ranked(rank)
    }

    /** Each branch has one fork and one select at most. */
    ghost predicate Paired() {
      forall a, b | Live(a) && Live(b) && EndOf(At(a).kind).Some? && EndOf(At(a).kind) == EndOf(At(b).kind) :: a == b
    }

    ghost predicate Whole() {
      Sound() && Acyclic()
    }
  }

  predicate ReadsBelow(rank: seq<nat>, src: Source, bound: nat) {
    src.Port? ==> src.node < |rank| && rank[src.node] < bound
  }

  /** Every branch end was minted by this graph, and each end of a branch is there at most once. */
  ghost predicate Ended(w: Wiring) {
    && w.Paired()
    && forall id | w.Live(id) && EndOf(w.At(id).kind).Some? :: EndOf(w.At(id).kind).value.0 < w.branches
  }

  /** Which end of which branch a box is. */
  function EndOf(kind: Kind): Option<(BranchId, bool)> {
    match kind
    case Fork(_, branch) => Some((branch, true))
    case Select(_, branch) => Some((branch, false))
    case _ => None
  }

  // ---- readings ----

  /** What operations and calls answer; any total functions of the stated arities will do. */
  datatype Reading = Reading(ops: imap<(Prim, seq<Value>), seq<Value>>, calls: Interp)

  /** `swap` is routing, and never read as an operation. */
  ghost function OpAnswer(rd: Reading, prim: Prim, args: seq<Value>): (r: seq<Value>)
    requires |args| == prim.Effect().inputs
    ensures |r| == prim.Effect().outputs
  {
    var n := prim.Effect().outputs;
    if prim.Swap? then [args[1], args[0]]
    else if (prim, args) in rd.ops && |rd.ops[(prim, args)]| == n then rd.ops[(prim, args)]
    else Units(n)
  }

  /** The reading the machine gives. */
  ghost function Actual(calls: Interp): Reading {
    Reading(imap key: (Prim, seq<Value>) | |key.1| == key.0.Effect().inputs :: Answer(key.0, key.1), calls)
  }

  lemma ActualAnswers(calls: Interp, prim: Prim, args: seq<Value>)
    requires |args| == prim.Effect().inputs
    ensures OpAnswer(Actual(calls), prim, args) == Answer(prim, args)
  {
    assert !prim.Swap? ==> (prim, args) in Actual(calls).ops;
  }

  /** A term with its operations read this way. */
  ghost function ReadTerm(t: Tree, rd: Reading, s: seq<Value>): (r: seq<Value>)
    requires t.Ok() && |s| == t.Effect().inputs
    ensures |r| == t.Effect().outputs
    decreases t
  {
    match t
    case Id(_) => s
    case Drop(_) => []
    case Copy(_) => s + s
    case Op(prim) => OpAnswer(rd, prim, s)
    case Call(target, arity) => CallAnswer(rd.calls, target, arity, s)
    case Compose(a, b) => ReadTerm(b, rd, ReadTerm(a, rd, s))
    case Par(a, b) =>
      var cut := a.Effect().inputs;
      ReadTerm(a, rd, s[..cut]) + ReadTerm(b, rd, s[cut..])
    case Branch(a, b) =>
      var top := |s| - 1;
      if s[top].Truthy() then ReadTerm(a, rd, s[..top]) else ReadTerm(b, rd, s[..top])
  }

  /** Read as the machine does, that is what running the term gives. */
  lemma {:induction false} ActualRuns(t: Tree, calls: Interp, s: seq<Value>)
    requires t.Ok() && |s| == t.Effect().inputs
    ensures ReadTerm(t, Actual(calls), s) == Run(t, calls, s)
    decreases t
  {
    match t
    case Op(prim) => ActualAnswers(calls, prim, s);
    case Compose(a, b) =>
      ActualRuns(a, calls, s);
      ActualRuns(b, calls, Run(a, calls, s));
    case Par(a, b) =>
      ActualRuns(a, calls, s[..a.Effect().inputs]);
      ActualRuns(b, calls, s[a.Effect().inputs..]);
    case Branch(a, b) =>
      ActualRuns(a, calls, s[..|s| - 1]);
      ActualRuns(b, calls, s[..|s| - 1]);
    case _ =>
  }

  /** What a box answers. A fork hands out two views whatever its condition is; a select keeps one. */
  ghost function BoxAnswer(kind: Kind, rd: Reading, args: seq<Value>): (r: seq<Value>)
    requires |args| == kind.Effect().inputs
    ensures |r| == kind.Effect().outputs
  {
    match kind
    case Id(_) => args
    case Copy(_) => args + args
    case Drop(_) => []
    case Op(prim) => OpAnswer(rd, prim, args)
    case Call(target, arity) => CallAnswer(rd.calls, target, arity, args)
    case Fork(_, _) => args[1..] + args[1..]
    case Select(n, _) => if args[0].Truthy() then args[1..1 + n] else args[1 + n..]
  }

  // ---- valuations ----

  type Valuation = imap<Source, Value>

  ghost function ValueOf(v: Valuation, src: Source): Value {
    if src in v then v[src] else UNIT
  }

  ghost function ValuesOf(v: Valuation, srcs: seq<Source>): (r: seq<Value>)
    ensures |r| == |srcs|
    ensures forall k | 0 <= k < |srcs| :: r[k] == ValueOf(v, srcs[k])
  {
    seq(|srcs|, k requires 0 <= k < |srcs| => ValueOf(v, srcs[k]))
  }

  function Inputs(n: nat): (r: seq<Source>)
    ensures |r| == n && forall k: nat | k < n :: r[k] == Input(k)
  {
    seq(n, (k: nat) => Input(k))
  }

  function Ports(id: NodeId, n: nat): (r: seq<Source>)
    ensures |r| == n && forall k: nat | k < n :: r[k] == Port(id, k)
  {
    seq(n, (k: nat) => Port(id, k))
  }

  /** A value for every port, each box's answers following from what it reads. */
  ghost predicate Solves(w: Wiring, rd: Reading, env: seq<Value>, v: Valuation) {
    && ValuesOf(v, Inputs(w.inputs)) == env
    && forall id | w.Live(id) :: BoxSolved(w.At(id), id, rd, v)
  }

  ghost predicate BoxSolved(box: Box, id: NodeId, rd: Reading, v: Valuation) {
    && |box.inputs| == box.kind.Effect().inputs
    && ValuesOf(v, Ports(id, box.kind.Effect().outputs)) == BoxAnswer(box.kind, rd, ValuesOf(v, box.inputs))
  }

  /** The value at a port, worked out from the values below it. */
  ghost function Eval(w: Wiring, rd: Reading, env: seq<Value>, rank: seq<nat>, src: Source): Value
    requires w.Sound() && w.Ranked(rank) && |env| == w.inputs && w.Has(src)
    decreases if src.Port? then rank[src.node] + 1 else 0
  {
    match src
    case Input(i) => env[i]
    case Port(id, port) =>
      var box := w.At(id);
      Readable(w, id);
      var args := seq(|box.inputs|, k requires 0 <= k < |box.inputs| =>
        assert ReadsBelow(rank, box.inputs[k], rank[id]); Eval(w, rd, env, rank, box.inputs[k]));
      BoxAnswer(box.kind, rd, args)[port]
  }

  lemma Readable(w: Wiring, id: NodeId)
    requires w.Sound() && w.Live(id)
    ensures forall k: nat | k < |w.At(id).inputs| :: w.Has(w.At(id).inputs[k])
  {
    forall k: nat | k < |w.At(id).inputs| ensures w.Has(w.At(id).inputs[k]) {
      assert w.Reads(Slot(id, k)).Some?;
    }
  }

  ghost function Solution(w: Wiring, rd: Reading, env: seq<Value>, rank: seq<nat>): Valuation
    requires w.Sound() && w.Ranked(rank) && |env| == w.inputs
  {
    imap src: Source | w.Has(src) :: Eval(w, rd, env, rank, src)
  }

  /** An acyclic graph has a solution on every input. */
  lemma SolutionSolves(w: Wiring, rd: Reading, env: seq<Value>, rank: seq<nat>)
    requires w.Sound() && w.Ranked(rank) && |env| == w.inputs
    ensures Solves(w, rd, env, Solution(w, rd, env, rank))
  {
    var v := Solution(w, rd, env, rank);
    forall id: NodeId | w.Live(id) ensures BoxSolved(w.At(id), id, rd, v) {
      var box := w.At(id);
      Readable(w, id);
      var args := seq(|box.inputs|, k requires 0 <= k < |box.inputs| =>
        assert ReadsBelow(rank, box.inputs[k], rank[id]); Eval(w, rd, env, rank, box.inputs[k]));
      assert args == ValuesOf(v, box.inputs);
      forall port: nat | port < box.kind.Effect().outputs
        ensures ValueOf(v, Port(id, port)) == BoxAnswer(box.kind, rd, args)[port]
      {
        assert w.Has(Port(id, port));
      }
    }
  }

  /** And no other: two solutions agree on every port. */
  lemma {:induction false} SolutionsAgree(
    w: Wiring, rd: Reading, env: seq<Value>, v: Valuation, u: Valuation, rank: seq<nat>, src: Source)
    requires w.Sound() && w.Ranked(rank) && Solves(w, rd, env, v) && Solves(w, rd, env, u) && w.Has(src)
    ensures ValueOf(v, src) == ValueOf(u, src)
    decreases if src.Port? then rank[src.node] + 1 else 0
  {
    match src
    case Input(i) =>
      assert Inputs(w.inputs)[i] == src;
      assert ValuesOf(v, Inputs(w.inputs))[i] == ValuesOf(u, Inputs(w.inputs))[i];
    case Port(id, port) =>
      var box := w.At(id);
      Readable(w, id);
      forall k | 0 <= k < |box.inputs| ensures ValueOf(v, box.inputs[k]) == ValueOf(u, box.inputs[k]) {
        assert ReadsBelow(rank, box.inputs[k], rank[id]);
        SolutionsAgree(w, rd, env, v, u, rank, box.inputs[k]);
      }
      assert ValuesOf(v, box.inputs) == ValuesOf(u, box.inputs);
      assert BoxSolved(box, id, rd, v) && BoxSolved(box, id, rd, u);
      var ports := Ports(id, box.kind.Effect().outputs);
      assert ValuesOf(v, ports)[port] == ValuesOf(u, ports)[port];
  }

  ghost function RankOf(w: Wiring): (rank: seq<nat>)
    requires w.Acyclic()
    ensures w.Ranked(rank)
  {
    var rank :| w.Ranked(rank);
    rank
  }

  lemma InputsGiven(w: Wiring, rd: Reading, env: seq<Value>, v: Valuation, i: nat)
    requires w.Sound() && Solves(w, rd, env, v) && i < w.inputs
    ensures |env| == w.inputs && ValueOf(v, Input(i)) == env[i]
  {
    assert ValuesOf(v, Inputs(w.inputs))[i] == ValueOf(v, Inputs(w.inputs)[i]);
  }

  /** What a graph means: the stack it leaves for the one it is given. */
  ghost function Meaning(w: Wiring, rd: Reading, env: seq<Value>): (r: seq<Value>)
    requires w.Whole() && |env| == w.inputs
    ensures |r| == |w.outputs|
  {
    ValuesOf(Solution(w, rd, env, RankOf(w)), w.outputs)
  }

  /** Any solution says what the graph means. */
  lemma MeaningIs(w: Wiring, rd: Reading, env: seq<Value>, v: Valuation)
    requires w.Whole() && Solves(w, rd, env, v)
    ensures |env| == w.inputs && Meaning(w, rd, env) == ValuesOf(v, w.outputs)
  {
    hide Solution; hide Wiring.Ranked; hide Wiring.Sound;
    var rank := RankOf(w);
    assert |env| == w.inputs;
    var u := Solution(w, rd, env, rank);
    SolutionSolves(w, rd, env, rank);
    forall k: nat | k < |w.outputs| ensures ValueOf(u, w.outputs[k]) == ValueOf(v, w.outputs[k]) {
      OutputsHeld(w, k);
      SolutionsAgree(w, rd, env, u, v, rank, w.outputs[k]);
    }
  }

  lemma OutputsHeld(w: Wiring, k: nat)
    requires w.Sound() && k < |w.outputs|
    ensures w.Has(w.outputs[k])
  {
    assert w.Reads(Output(k)).Some?;
  }

  lemma HasSolution(w: Wiring, rd: Reading, env: seq<Value>) returns (v: Valuation)
    requires w.Whole() && |env| == w.inputs
    ensures Solves(w, rd, env, v)
  {
    SolutionSolves(w, rd, env, RankOf(w));
    v := Solution(w, rd, env, RankOf(w));
  }

  /** The same program, however the operations and the calls are read. */
  ghost predicate Alike(a: Wiring, b: Wiring) {
    && a.Whole() && b.Whole() && a.Effect() == b.Effect()
    && forall rd: Reading, env: seq<Value> | |env| == a.inputs :: Meaning(a, rd, env) == Meaning(b, rd, env)
  }
}
