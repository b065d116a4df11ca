/** The laws as pairs of graphs, and the proofs that the two of each pair mean the same. */
module Laws {
  import opened Wrappers
  import opened Values
  import opened Prims
  import opened Terms
  import opened Wirings
  import opened Splices

  datatype Rule =
    | IdElim(n: nat)
    | SwapElim
    | CopyElim(n: nat)
    | DeadNode(kind: Kind)
    | Dedup(kind: Kind)
    | NotNot
  {
    /** What is true of the wiring alone; `not ; not` is about what the machine computes. */
    predicate Structural() {
      !NotNot?
    }
  }

  /** The kind with branch id 0, since a pattern names its own branches from 0 on. */
  function Refresh(kind: Kind): Kind {
    match kind
    case Fork(n, _) => Kind.Fork(n, 0)
    case Select(n, _) => Kind.Select(n, 0)
    case _ => kind
  }

  function BranchCount(kind: Kind): nat {
    if EndOf(kind).Some? then 1 else 0
  }

  /** One box on the boundary's inputs, every port exported in order. */
  function OneBox(kind: Kind): Wiring {
    var a := kind.Effect();
    Wiring([Some(Box(Refresh(kind), Inputs(a.inputs)))], a.inputs, Ports(0, a.outputs), BranchCount(kind))
  }

  /** One box no output reads: as a pattern it matches only where the box has no readers. */
  function DeadBox(kind: Kind): Wiring {
    OneBox(kind).(outputs := [])
  }

  function Wires(n: nat, outputs: seq<Source>): Wiring {
    Wiring([], n, outputs, 0)
  }

  function Twice(kind: Kind): Wiring {
    var a := kind.Effect();
    var box := Some(Box(kind, Inputs(a.inputs)));
    Wiring([box, box], a.inputs, Ports(0, a.outputs) + Ports(1, a.outputs), 0)
  }

  function Once(kind: Kind): Wiring {
    var a := kind.Effect();
    Wiring([Some(Box(kind, Inputs(a.inputs)))], a.inputs, Ports(0, a.outputs) + Ports(0, a.outputs), 0)
  }

  /** The left and right graph of a law. `Dedup` of a branch end is no law, and has none. */
  function Sides(rule: Rule): Option<(Wiring, Wiring)> {
    match rule
    case IdElim(n) => Some((OneBox(Kind.Id(n)), Wires(n, Inputs(n))))
    case SwapElim => Some((OneBox(Kind.Op(Prim.Swap)), Wires(2, [Input(1), Input(0)])))
    case CopyElim(n) => Some((OneBox(Kind.Copy(n)), Wires(n, Inputs(n) + Inputs(n))))
    case DeadNode(kind) => Some((DeadBox(kind), Wires(kind.Effect().inputs, [])))
    case Dedup(kind) => if EndOf(kind).Some? then None else Some((Twice(kind), Once(kind)))
    case NotNot =>
      var inverted := Kind.Op(Prim.Not);
      Some((
        Wiring([Some(Box(inverted, [Input(0)])), Some(Box(inverted, [Port(0, 0)]))], 1, [Port(1, 0)], 0),
        Wiring([Some(Box(Kind.Op(Prim.AsBool), [Input(0)]))], 1, [Port(0, 0)], 0)))
  }

  // ---- the table is right ----

  /** Boxes that read the boundary and nothing else, each of them all of it, in order. */
  ghost predicate Flat(w: Wiring) {
    && Dense(w)
    && (forall k: NodeId | k < |w.boxes| ::
      w.At(k).inputs == Inputs(w.inputs) && w.At(k).kind.Effect().inputs == w.inputs)
    && (forall j | 0 <= j < |w.outputs| :: w.Has(w.outputs[j]))
  }

  lemma FlatWhole(w: Wiring)
    requires Flat(w)
    ensures w.Whole() && w.Ranked(seq(|w.boxes|, k => 0))
  {
    forall sink | w.Reads(sink).Some? ensures w.Has(w.Reads(sink).value) {
      if sink.Slot? {
        assert w.At(sink.node).inputs == Inputs(w.inputs);
      }
    }
    assert w.Ranked(seq(|w.boxes|, k => 0));
  }

  /** What a flat graph's port answers. */
  ghost function FlatValue(w: Wiring, rd: Reading, env: seq<Value>, src: Source): Value
    requires Flat(w) && |env| == w.inputs && w.Has(src)
  {
    match src
    case Input(i) => env[i]
    case Port(k, port) => BoxAnswer(w.At(k).kind, rd, env)[port]
  }

  lemma FlatMeaning(w: Wiring, rd: Reading, env: seq<Value>)
    requires Flat(w) && |env| == w.inputs
    ensures w.Whole()
    ensures forall j | 0 <= j < |w.outputs| :: Meaning(w, rd, env)[j] == FlatValue(w, rd, env, w.outputs[j])
  {
    FlatWhole(w);
    var v: Valuation := imap src: Source | w.Has(src) :: FlatValue(w, rd, env, src);
    forall i: nat | i < w.inputs ensures ValueOf(v, Input(i)) == env[i] {
      assert w.Has(Input(i));
    }
    assert ValuesOf(v, Inputs(w.inputs)) == env;
    forall k: NodeId | w.Live(k) ensures BoxSolved(w.At(k), k, rd, v) {
      var n := w.At(k).kind.Effect().outputs;
      forall port: nat | port < n ensures ValueOf(v, Port(k, port)) == BoxAnswer(w.At(k).kind, rd, env)[port] {
        assert w.Has(Port(k, port));
      }
      assert ValuesOf(v, Ports(k, n)) == BoxAnswer(w.At(k).kind, rd, env);
    }
    MeaningIs(w, rd, env, v);
  }

  /** Two flat graphs of one interface that answer alike, output by output. */
  lemma FlatLaw(p: Wiring, r: Wiring, rd: Reading)
    requires Flat(p) && Flat(r) && p.Effect() == r.Effect()
    requires forall env: seq<Value>, j | |env| == p.inputs && 0 <= j < |p.outputs| ::
      FlatValue(p, rd, env, p.outputs[j]) == FlatValue(r, rd, env, r.outputs[j])
    ensures LawUnder(p, r, rd)
  {
    FlatWhole(p);
    FlatWhole(r);
    forall env: seq<Value> | |env| == p.inputs ensures Meaning(p, rd, env) == Meaning(r, rd, env) {
      FlatMeaning(p, rd, env);
      FlatMeaning(r, rd, env);
      assert forall j | 0 <= j < |p.outputs| :: Meaning(p, rd, env)[j] == Meaning(r, rd, env)[j];
    }
  }

  lemma OneBoxFlat(kind: Kind)
    ensures Flat(OneBox(kind)) && Flat(DeadBox(kind))
  {
  }

  lemma WiresFlat(n: nat, outputs: seq<Source>)
    requires forall j | 0 <= j < |outputs| :: outputs[j].Input? && outputs[j].i < n
    ensures Flat(Wires(n, outputs))
  {
  }

  lemma TwiceFlat(kind: Kind)
    ensures Flat(Twice(kind)) && Flat(Once(kind)) && Twice(kind).Effect() == Once(kind).Effect()
  {
  }

  /** Both sides of every structural law are flat. */
  lemma StructuralSidesFlat(rule: Rule)
    requires rule.Structural() && Sides(rule).Some?
    ensures var (l, r) := Sides(rule).value; Flat(l) && Flat(r) && l.Effect() == r.Effect() && |l.boxes| > 0
  {
    match rule {
      case IdElim(n) => OneBoxFlat(Kind.Id(n)); WiresFlat(n, Inputs(n));
      case SwapElim => OneBoxFlat(Kind.Op(Prim.Swap)); WiresFlat(2, [Input(1), Input(0)]);
      case CopyElim(n) => OneBoxFlat(Kind.Copy(n)); WiresFlat(n, Inputs(n) + Inputs(n));
      case DeadNode(kind) => OneBoxFlat(kind); WiresFlat(kind.Effect().inputs, []);
      case Dedup(kind) => TwiceFlat(kind);
      case _ =>
    }
  }

  /** Every structural law holds however the operations and the calls are read. */
  lemma StructuralLawHolds(rule: Rule, rd: Reading)
    requires rule.Structural() && Sides(rule).Some?
    ensures LawUnder(Sides(rule).value.0, Sides(rule).value.1, rd)
  {
    StructuralSidesFlat(rule);
    var (p, r) := Sides(rule).value;
    forall env: seq<Value>, j: nat | |env| == p.inputs && j < |p.outputs|
      ensures FlatValue(p, rd, env, p.outputs[j]) == FlatValue(r, rd, env, r.outputs[j])
    {
      OutputsHeld(p, j) by { FlatWhole(p); }
      match rule
      case Dedup(kind) => assert p.outputs[j].port == r.outputs[j].port;
      case _ =>
    }
    FlatLaw(p, r, rd);
  }

  lemma LongMeans(rd: Reading, env: seq<Value>)
    requires |env| == 1
    ensures var l := Sides(NotNot).value.0;
      l.Whole() && Meaning(l, rd, env) == OpAnswer(rd, Prim.Not, OpAnswer(rd, Prim.Not, env))
  {
    hide OpAnswer; hide Meaning;
    var l := Sides(NotNot).value.0;
    assert l.Ranked([0, 1]);
    var once := OpAnswer(rd, Prim.Not, env);
    var twice := OpAnswer(rd, Prim.Not, once);
    var v: Valuation := imap[Input(0) := env[0], Port(0, 0) := once[0], Port(1, 0) := twice[0]];
    assert ValuesOf(v, Inputs(1)) == env && ValuesOf(v, [Input(0)]) == env;
    assert ValuesOf(v, Ports(0, 1)) == once && ValuesOf(v, [Port(0, 0)]) == once && ValuesOf(v, Ports(1, 1)) == twice;
    assert BoxSolved(l.At(0), 0, rd, v) && BoxSolved(l.At(1), 1, rd, v);
    assert ValuesOf(v, l.outputs) == twice;
    hide ValuesOf; hide BoxSolved;
    MeaningIs(l, rd, env, v);
  }

  lemma ShortMeans(rd: Reading, env: seq<Value>)
    requires |env| == 1
    ensures var r := Sides(NotNot).value.1; r.Whole() && Meaning(r, rd, env) == OpAnswer(rd, Prim.AsBool, env)
  {
    hide OpAnswer;
    var r := Sides(NotNot).value.1;
    assert Flat(r);
    FlatMeaning(r, rd, env);
  }

  /** `not ; not` is `as_bool`, read as the machine reads them. */
  lemma NotNotHolds(calls: Interp)
    ensures LawUnder(Sides(NotNot).value.0, Sides(NotNot).value.1, Actual(calls))
  {
    hide OpAnswer; hide Meaning; hide Wiring.Whole; hide Actual;
    var (l, r) := Sides(NotNot).value;
    var rd := Actual(calls);
    LongMeans(rd, [UNIT]);
    ShortMeans(rd, [UNIT]);
    forall env: seq<Value> | |env| == 1 ensures Meaning(l, rd, env) == Meaning(r, rd, env) {
      LongMeans(rd, env);
      ShortMeans(rd, env);
      ActualAnswers(calls, Prim.Not, env);
      ActualAnswers(calls, Prim.Not, Answer(Prim.Not, env));
      ActualAnswers(calls, Prim.AsBool, env);
    }
  }

  /** A reading under which `not` answers one thing and everything else another. */
  ghost function Stubborn(): Reading {
    Reading(imap key: (Prim, seq<Value>) | key.0.Not? :: [Value.Int(1)], imap[])
  }

  lemma StubbornAnswers(x: Value)
    ensures OpAnswer(Stubborn(), Prim.Not, [x]) == [Value.Int(1)] && OpAnswer(Stubborn(), Prim.AsBool, [x]) == [UNIT]
  {
    assert (Prim.Not, [x]) in Stubborn().ops;
  }

  /** Read opaquely the two sides are different programs, which is why the law is not a structural one. */
  lemma NotNotIsNotStructural()
    ensures !LawUnder(Sides(NotNot).value.0, Sides(NotNot).value.1, Stubborn())
  {
    hide Meaning; hide Wiring.Whole; hide OpAnswer; hide Stubborn;
    LongMeans(Stubborn(), [UNIT]);
    ShortMeans(Stubborn(), [UNIT]);
    StubbornAnswers(UNIT);
    StubbornAnswers(Value.Int(1));
    var (l, r) := Sides(NotNot).value;
    assert Meaning(l, Stubborn(), [UNIT]) != Meaning(r, Stubborn(), [UNIT]);
  }

  // ---- a forward step keeps a graph acyclic ----

  /** Every boundary input is read, and everything exported is a box's port. */
  ghost predicate Pinned(p: Wiring) {
    && (forall k: NodeId | p.Live(k) :: p.At(k).inputs == Inputs(p.inputs))
    && (forall j | 0 <= j < |p.outputs| :: p.outputs[j].Port?)
    && |p.boxes| > 0
  }

  lemma LeftSidesPinned(rule: Rule)
    requires rule.Structural() && Sides(rule).Some?
    ensures Pinned(Sides(rule).value.0)
  {
    StructuralSidesFlat(rule);
  }

  /** A pinned pattern's match says itself what its boundary inputs stand for. */
  lemma PinnedIsGrounded(w: Wiring, p: Wiring, m: Match)
    requires w.Sound() && Embeds(w, p, m) && Pinned(p) && Flat(p)
    ensures Grounded(w, m)
  {
    assert BoxFits(w, p, m, 0);
    forall i: nat | i < |m.inputs| ensures w.Has(m.inputs[i]) {
      assert w.At(m.nodes[0]).inputs[i] == Image(m, Input(i));
      assert w.Reads(Slot(m.nodes[0], i)) == Some(m.inputs[i]);
    }
  }

  /** A rank every matched box's producers are below and every reader of the match is above. */
  ghost predicate Between(w: Wiring, rank: seq<nat>, p: Wiring, m: Match, middle: nat) {
    && (forall i | 0 <= i < |m.inputs| :: ReadsBelow(rank, m.inputs[i], middle))
    && (forall j, sink | 0 <= j < |p.outputs| && j < |m.outputs| && sink in m.outputs[j] && sink.Slot? ::
      sink.node < |rank| && middle < rank[sink.node])
  }

  lemma {:induction false} LeastRank(rank: seq<nat>, nodes: seq<NodeId>) returns (least: nat)
    requires |nodes| > 0 && forall k | 0 <= k < |nodes| :: nodes[k] < |rank|
    ensures least < |nodes| && forall k | 0 <= k < |nodes| :: rank[nodes[least]] <= rank[nodes[k]]
  {
    if |nodes| == 1 {
      return 0;
    }
    var rest := LeastRank(rank, nodes[..|nodes| - 1]);
    least := if rank[nodes[|nodes| - 1]] < rank[nodes[rest]] then |nodes| - 1 else rest;
  }

  lemma PinnedHasMiddle(w: Wiring, p: Wiring, m: Match, rank: seq<nat>) returns (middle: nat)
    requires w.Sound() && w.Ranked(rank) && Embeds(w, p, m) && Pinned(p) && Flat(p)
    ensures Between(w, rank, p, m, middle)
  {
    hide Full;
    var k := LeastRank(rank, m.nodes);
    middle := rank[m.nodes[k]];
    assert BoxFits(w, p, m, k);
    forall i: nat | i < |m.inputs| ensures ReadsBelow(rank, m.inputs[i], middle) {
      assert w.At(m.nodes[k]).inputs[i] == Image(m, Input(i));
    }
    forall j: nat, sink | j < |p.outputs| && j < |m.outputs| && sink in m.outputs[j] && sink.Slot?
      ensures sink.node < |rank| && middle < rank[sink.node]
    {
      assert Serves(w, p, m, j);
      var q := p.outputs[j].node;
      assert w.Reads(sink) == Some(Port(m.nodes[q], p.outputs[j].port));
      assert ReadsBelow(rank, w.At(sink.node).inputs[sink.port], rank[sink.node]);
    }
  }

  /** Replacing what lies at a middle rank by boxes that read only the boundary makes no cycle. */
  lemma MiddleKeepsRanks(w: Wiring, p: Wiring, r: Wiring, m: Match, rank: seq<nat>, middle: nat)
    requires w.Sound() && w.Ranked(rank) && Embeds(w, p, m) && Flat(r) && p.Effect() == r.Effect()
    requires Grounded(w, m) && Between(w, rank, p, m, middle)
    ensures Spliced(w, r, m).Ranked(rank + seq(|r.boxes|, k => middle))
  {
    hide Full; hide BoxFits; hide Serves; hide Wiring.Sound;
    var s, back := Spliced(w, r, m), Back(w, r, m);
    var more := rank + seq(|r.boxes|, k => middle);
    assert |s.boxes| == |more|;
    forall id: NodeId, port: nat | s.Live(id) && port < |s.At(id).inputs|
      ensures ReadsBelow(more, s.At(id).inputs[port], more[id])
    {
      SplicedAt(w, r, m, id);
      if id >= |w.boxes| {
        var box := r.At(id - |w.boxes|);
        assert box.inputs[port] == Input(port);
        assert ReadsBelow(rank, m.inputs[port], middle);
      } else {
        assert ReadsBelow(rank, w.At(id).inputs[port], rank[id]);
        RepointedRank(w, p, r, m, rank, middle, id, port);
      }
    }
  }

  lemma RepointedRank(
    w: Wiring, p: Wiring, r: Wiring, m: Match, rank: seq<nat>, middle: nat, id: NodeId, port: nat)
    requires w.Ranked(rank) && Embeds(w, p, m) && Flat(r) && p.Effect() == r.Effect()
    requires Between(w, rank, p, m, middle) && w.Live(id) && port < |w.At(id).inputs|
    ensures ReadsBelow(rank + seq(|r.boxes|, k => middle),
      Repointed(r, Back(w, r, m), Slot(id, port), w.At(id).inputs[port]), rank[id])
  {
    hide Full; hide BoxFits; hide Serves;
    assert ReadsBelow(rank, w.At(id).inputs[port], rank[id]);
    match ServedBy(m.outputs, Slot(id, port)) {
      case Some(j) =>
        assert Slot(id, port) in m.outputs[j] && middle < rank[id];
        assert r.Has(r.outputs[j]);
        if r.outputs[j].Input? {
          assert ReadsBelow(rank, m.inputs[r.outputs[j].i], middle);
        }
      case None =>
    }
  }

  /** The law of a forward step: links, acyclicity, interface and meaning all survive it. */
  lemma ForwardStep(w: Wiring, rule: Rule, m: Match)
    requires w.Whole() && rule.Structural() && Sides(rule).Some? && Embeds(w, Sides(rule).value.0, m)
    ensures Grounded(w, m) && Alike(w, Spliced(w, Sides(rule).value.1, m))
  {
    hide Full; hide BoxFits; hide Serves;
    var (p, r) := Sides(rule).value;
    StructuralSidesFlat(rule);
    LeftSidesPinned(rule);
    PinnedIsGrounded(w, p, m);
    FlatWhole(r);
    SpliceSound(w, p, r, m);
    var rank := RankOf(w);
    var middle := PinnedHasMiddle(w, p, m, rank);
    MiddleKeepsRanks(w, p, r, m, rank, middle);
    var s := Spliced(w, r, m);
    assert s.Whole() && s.Effect() == w.Effect();
    forall rd: Reading, env: seq<Value> | |env| == w.inputs ensures Meaning(w, rd, env) == Meaning(s, rd, env) {
      StructuralLawHolds(rule, rd);
      SpliceMeans(w, p, r, m, rd, env);
    }
  }
}
