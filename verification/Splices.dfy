/** A subgraph pointed at, and another put in its place. */
module Splices {
  import opened Wrappers
  import opened Values
  import opened Wirings

  /**
   * An embedding of a pattern: which box is which, what its boundary inputs stand for, and which sinks its
   * boundary outputs serve. The last is a choice where two outputs name one port.
   */
  datatype Match = Match(nodes: seq<NodeId>, inputs: seq<Source>, outputs: seq<seq<Sink>>, branches: seq<BranchId>)

  /** A pattern's source, read in the host. */
  function Image(m: Match, src: Source): Source {
    match src
    case Input(i) => if i < |m.inputs| then m.inputs[i] else src
    case Port(node, port) => if node < |m.nodes| then Port(m.nodes[node], port) else src
  }

  function Images(m: Match, srcs: seq<Source>): (r: seq<Source>)
    ensures |r| == |srcs| && forall k | 0 <= k < |srcs| :: r[k] == Image(m, srcs[k])
  {
    seq(|srcs|, k requires 0 <= k < |srcs| => Image(m, srcs[k]))
  }

  predicate Inside(m: Match, sink: Sink) {
    sink.Slot? && sink.node in m.nodes
  }

  predicate PortInside(m: Match, src: Source) {
    src.Port? && src.node in m.nodes
  }

  // ---- the readers a match accounts for ----

  function OutputReaders(w: Wiring, src: Source, n: nat): seq<Sink>
    requires n <= |w.outputs|
  {
    if n == 0 then []
    else OutputReaders(w, src, n - 1) + if w.outputs[n - 1] == src then [Output(n - 1)] else []
  }

  function PortReaders(w: Wiring, src: Source, id: NodeId, n: nat): seq<Sink>
    requires w.Live(id) && n <= |w.At(id).inputs|
  {
    if n == 0 then []
    else PortReaders(w, src, id, n - 1) + if w.At(id).inputs[n - 1] == src then [Slot(id, n - 1)] else []
  }

  function BoxReaders(w: Wiring, src: Source, n: nat): seq<Sink>
    requires n <= |w.boxes|
  {
    if n == 0 then []
    else
      BoxReaders(w, src, n - 1)
      + if w.Live(n - 1) then PortReaders(w, src, n - 1, |w.At(n - 1).inputs|) else []
  }

  /** Every sink that reads a port, once each. */
  function Readers(w: Wiring, src: Source): seq<Sink> {
    BoxReaders(w, src, |w.boxes|) + OutputReaders(w, src, |w.outputs|)
  }

  function ServedFor(m: Match, sink: Sink): seq<Sink> {
    match sink
    case Output(j) => if j < |m.outputs| then m.outputs[j] else []
    case Slot(node, port) => if node < |m.nodes| then [Slot(m.nodes[node], port)] else []
  }

  /** Who should read the host's copy of a port, given who reads the pattern's. */
  function Want(m: Match, readers: seq<Sink>): seq<Sink> {
    if readers == [] then [] else ServedFor(m, readers[0]) + Want(m, readers[1..])
  }

  lemma {:induction false} WantHas(m: Match, readers: seq<Sink>, sink: Sink)
    ensures sink in Want(m, readers) <==> exists r :: r in readers && sink in ServedFor(m, r)
  {
    if readers != [] {
      WantHas(m, readers[1..], sink);
      assert readers == [readers[0]] + readers[1..];
    }
  }

  lemma {:induction false} OutputReadersHas(w: Wiring, src: Source, n: nat, sink: Sink)
    requires n <= |w.outputs|
    ensures sink in OutputReaders(w, src, n) <==> sink.Output? && sink.i < n && w.outputs[sink.i] == src
  {
    if n > 0 {
      OutputReadersHas(w, src, n - 1, sink);
    }
  }

  lemma {:induction false} PortReadersHas(w: Wiring, src: Source, id: NodeId, n: nat, sink: Sink)
    requires w.Live(id) && n <= |w.At(id).inputs|
    ensures sink in PortReaders(w, src, id, n)
      <==> sink.Slot? && sink.node == id && sink.port < n && w.At(id).inputs[sink.port] == src
  {
    if n > 0 {
      PortReadersHas(w, src, id, n - 1, sink);
    }
  }

  lemma {:induction false} BoxReadersHas(w: Wiring, src: Source, n: nat, sink: Sink)
    requires n <= |w.boxes|
    ensures sink in BoxReaders(w, src, n) <==> sink.Slot? && sink.node < n && w.Reads(sink) == Some(src)
  {
    hide PortReaders;
    if n > 0 {
      BoxReadersHas(w, src, n - 1, sink);
      if w.Live(n - 1) {
        PortReadersHas(w, src, n - 1, |w.At(n - 1).inputs|, sink);
      }
    }
  }

  lemma ReadersHas(w: Wiring, src: Source, sink: Sink)
    ensures sink in Readers(w, src) <==> w.Reads(sink) == Some(src)
  {
    BoxReadersHas(w, src, |w.boxes|, sink);
    OutputReadersHas(w, src, |w.outputs|, sink);
  }

  // ---- what makes a match one ----

  ghost predicate Distinct<T(!new)>(s: seq<T>) {
    forall i, j | 0 <= i < j < |s| :: s[i] != s[j]
  }

  /** The kinds agree, a branch id of the pattern standing for the host's at that place in the list. */
  predicate SameKind(pattern: Kind, host: Kind, branches: seq<BranchId>) {
    match (pattern, host)
    case (Fork(n, b), Fork(m, c)) => n == m && b < |branches| && branches[b] == c
    case (Select(n, b), Select(m, c)) => n == m && b < |branches| && branches[b] == c
    case (a, b) => EndOf(a).None? && a == b
  }

  ghost predicate Shaped(w: Wiring, p: Wiring, m: Match) {
    && |m.nodes| == |p.boxes| && |m.inputs| == p.inputs
    && |m.outputs| == |p.outputs| && |m.branches| == p.branches
    && Distinct(m.nodes) && Distinct(m.branches)
    && (forall k | 0 <= k < |m.nodes| :: w.Live(m.nodes[k]))
  }

  /** The host's port is read by exactly the sinks the match accounts for, once each. */
  ghost predicate Full(w: Wiring, m: Match, readers: seq<Sink>, src: Source) {
    forall sink :: multiset(Want(m, readers))[sink] == if w.Reads(sink) == Some(src) then 1 else 0
  }

  ghost predicate BoxFits(w: Wiring, p: Wiring, m: Match, k: NodeId)
    requires p.Live(k) && k < |m.nodes| && w.Live(m.nodes[k])
  {
    && SameKind(p.At(k).kind, w.At(m.nodes[k]).kind, m.branches)
    && w.At(m.nodes[k]).inputs == Images(m, p.At(k).inputs)
    && forall port: nat | port < p.At(k).kind.Effect().outputs ::
      Full(w, m, Readers(p, Port(k, port)), Port(m.nodes[k], port))
  }

  /** A sink the match hands to a boundary output reads what that output names, from outside. */
  ghost predicate Serves(w: Wiring, p: Wiring, m: Match, j: nat)
    requires j < |p.outputs| && j < |m.outputs|
  {
    forall sink | sink in m.outputs[j] :: w.Reads(sink) == Some(Image(m, p.outputs[j])) && !Inside(m, sink)
  }

  predicate Dense(p: Wiring) {
    forall k | 0 <= k < |p.boxes| :: p.boxes[k].Some?
  }

  /** The match is one-to-one on boxes, respects every input, and lists all readers outside it and no others. */
  ghost predicate Embeds(w: Wiring, p: Wiring, m: Match) {
    && Dense(p) && Shaped(w, p, m)
    && (forall k: NodeId | k < |p.boxes| :: BoxFits(w, p, m, k))
    && (forall j: nat | j < |p.outputs| :: Serves(w, p, m, j))
    && (forall i | 0 <= i < |m.inputs| :: !PortInside(m, m.inputs[i]))
  }

  /** What the boundary inputs stand for is there. A match of a pattern with no boxes is not tested for this. */
  ghost predicate Grounded(w: Wiring, m: Match) {
    forall i | 0 <= i < |m.inputs| :: w.Has(m.inputs[i])
  }

  // ---- the splice ----

  /** Host names for `n` branches: those matched first, then ids from `next` on. */
  function Named(branches: seq<BranchId>, next: BranchId, n: nat): (r: seq<BranchId>)
    ensures |r| == n
  {
    seq(n, (k: nat) => if k < |branches| then branches[k] else next + k - |branches|)
  }

  /** A match of the replacement `r` in the graph it has just been put into. */
  function Back(w: Wiring, r: Wiring, m: Match): Match {
    Match(seq(|r.boxes|, (k: nat) => |w.boxes| + k), m.inputs, m.outputs, Named(m.branches, w.branches, r.branches))
  }

  /** The boundary output a sink was handed to. */
  function ServedBy(outputs: seq<seq<Sink>>, sink: Sink): (j: Option<nat>)
    ensures j.Some? ==> j.value < |outputs| && sink in outputs[j.value]
    ensures j.None? ==> forall k | 0 <= k < |outputs| :: sink !in outputs[k]
  {
    if outputs == [] then None
    else
      var last := |outputs| - 1;
      if sink in outputs[last] then Some(last) else ServedBy(outputs[..last], sink)
  }

  /** What a sink of the host reads afterwards. */
  function Repointed(r: Wiring, back: Match, sink: Sink, was: Source): Source {
    match ServedBy(back.outputs, sink)
    case Some(j) => if j < |r.outputs| then Image(back, r.outputs[j]) else was
    case None => was
  }

  function Rename(kind: Kind, branches: seq<BranchId>): Kind {
    match kind
    case Fork(n, b) => Kind.Fork(n, if b < |branches| then branches[b] else b)
    case Select(n, b) => Kind.Select(n, if b < |branches| then branches[b] else b)
    case _ => kind
  }

  function Survivor(r: Wiring, back: Match, id: NodeId, box: Box): Box {
    Box(box.kind, seq(|box.inputs|, (p: nat) requires p < |box.inputs| =>
      Repointed(r, back, Slot(id, p), box.inputs[p])))
  }

  function Arrival(back: Match, box: Box): Box {
    Box(Rename(box.kind, back.branches), Images(back, box.inputs))
  }

  /** The matched boxes out, the replacement in, and the loose ends re-pointed. */
  function Spliced(w: Wiring, r: Wiring, m: Match): Wiring {
    var back := Back(w, r, m);
    var base := |w.boxes|;
    Wiring(
      seq(base + |r.boxes|, (id: nat) requires id < base + |r.boxes| =>
        if id >= base then (if r.Live(id - base) then Some(Arrival(back, r.At(id - base))) else None)
        else if w.Live(id) && id !in m.nodes then Some(Survivor(r, back, id, w.At(id)))
        else None),
      w.inputs,
      seq(|w.outputs|, (i: nat) requires i < |w.outputs| => Repointed(r, back, Output(i), w.outputs[i])),
      if r.branches > |m.branches| then w.branches + r.branches - |m.branches| else w.branches)
  }

  /** Sinks from outside that read a matched port were all handed to a boundary output naming that port. */
  lemma LooseEndsServed(w: Wiring, p: Wiring, m: Match, sink: Sink, k: NodeId, port: nat) returns (j: nat)
    requires w.Sound() && Embeds(w, p, m) && k < |p.boxes| && !Inside(m, sink)
    requires w.Reads(sink) == Some(Port(m.nodes[k], port))
    ensures j < |p.outputs| && sink in m.outputs[j] && p.outputs[j] == Port(k, port)
  {
    hide Readers; hide Want; hide Serves;
    assert BoxFits(w, p, m, k);
    assert w.Has(Port(m.nodes[k], port));
    hide Wiring.Sound;
    var readers := Readers(p, Port(k, port));
    assert Full(w, m, readers, Port(m.nodes[k], port));
    assert sink in multiset(Want(m, readers));
    WantHas(m, readers, sink);
    var r :| r in readers && sink in ServedFor(m, r);
    ReadersHas(p, Port(k, port), r);
    j := r.i;
  }

  lemma ServedIsOutside(w: Wiring, p: Wiring, m: Match, sink: Sink)
    requires Embeds(w, p, m) && ServedBy(m.outputs, sink).Some?
    ensures !Inside(m, sink)
    ensures w.Reads(sink) == Some(Image(m, p.outputs[ServedBy(m.outputs, sink).value]))
  {
    assert Serves(w, p, m, ServedBy(m.outputs, sink).value);
  }

  /** What a box of the result reads, sink by sink. */
  lemma SplicedReads(w: Wiring, r: Wiring, m: Match, sink: Sink)
    requires Dense(r)
    ensures var s := Spliced(w, r, m); var back := Back(w, r, m);
      s.Reads(sink) ==
        if sink.Slot? && sink.node >= |w.boxes| then
          (match r.Reads(Slot(sink.node - |w.boxes|, sink.port)) case Some(src) =>
            Some(Image(back, src)) case None => None)
        else if Inside(m, sink) then None
        else (match w.Reads(sink) case Some(was) => Some(Repointed(r, back, sink, was)) case None => None)
  {
  }

  lemma SplicedAt(w: Wiring, r: Wiring, m: Match, id: NodeId)
    requires Dense(r)
    ensures Spliced(w, r, m).Live(id) <==> (if id < |w.boxes| then w.Live(id)
      && id !in m.nodes else id - |w.boxes| < |r.boxes|)
    ensures Spliced(w, r, m).Live(id) && id < |w.boxes| ==>
      Spliced(w, r, m).At(id) == Survivor(r, Back(w, r, m), id, w.At(id))
    ensures Spliced(w, r, m).Live(id) && id >= |w.boxes| ==>
      Spliced(w, r, m).At(id) == Arrival(Back(w, r, m), r.At(id - |w.boxes|))
  {
  }

  lemma SplicedHas(w: Wiring, r: Wiring, m: Match, src: Source)
    requires Dense(r)
    ensures Spliced(w, r, m).Has(src) <==>
      if src.Port? && src.node >= |w.boxes| then r.Has(Port(src.node - |w.boxes|, src.port))
      else w.Has(src) && !PortInside(m, src)
  {
    if src.Port? && src.node >= |w.boxes| && r.Live(src.node - |w.boxes|) {
      var k := src.node - |w.boxes|;
      RenameKeepsShape(r.At(k).kind, Back(w, r, m).branches);
    }
  }

  lemma RenameKeepsShape(kind: Kind, branches: seq<BranchId>)
    ensures Rename(kind, branches).Effect() == kind.Effect()
  {
  }

  lemma RenameAnswers(kind: Kind, branches: seq<BranchId>, rd: Reading, args: seq<Value>)
    requires |args| == kind.Effect().inputs
    ensures Rename(kind, branches).Effect() == kind.Effect()
    ensures BoxAnswer(Rename(kind, branches), rd, args) == BoxAnswer(kind, rd, args)
  {
  }

  /** A source the replacement carries into the host is one the result has. */
  lemma CarriedIsHeld(w: Wiring, r: Wiring, m: Match, src: Source)
    requires Dense(r) && r.Has(src) && |m.inputs| == r.inputs && Grounded(w, m)
    requires forall i | 0 <= i < |m.inputs| :: !PortInside(m, m.inputs[i])
    ensures Spliced(w, r, m).Has(Image(Back(w, r, m), src))
  {
    SplicedHas(w, r, m, Image(Back(w, r, m), src));
  }

  /** Links stay links: everything read in the result is there, and every box has its kind's ports. */
  lemma SpliceSound(w: Wiring, p: Wiring, r: Wiring, m: Match)
    requires w.Sound() && r.Sound() && Dense(r) && Embeds(w, p, m) && Grounded(w, m)
    requires p.Effect() == r.Effect()
    ensures Spliced(w, r, m).Sound()
  {
    hide Full;
    var s, back := Spliced(w, r, m), Back(w, r, m);
    forall id: NodeId | s.Live(id) ensures |s.At(id).inputs| == s.At(id).kind.Effect().inputs {
      if id >= |w.boxes| {
        assert r.Live(id - |w.boxes|);
        RenameKeepsShape(r.At(id - |w.boxes|).kind, back.branches);
      } else {
        assert w.Live(id);
      }
    }
    forall sink | s.Reads(sink).Some? ensures s.Has(s.Reads(sink).value) {
      SplicedReads(w, r, m, sink);
      if sink.Slot? && sink.node >= |w.boxes| {
        CarriedIsHeld(w, r, m, r.Reads(Slot(sink.node - |w.boxes|, sink.port)).value);
      } else {
        RepointedIsHeld(w, p, r, m, sink);
      }
    }
  }

  lemma RepointedIsHeld(w: Wiring, p: Wiring, r: Wiring, m: Match, sink: Sink)
    requires w.Sound() && r.Sound() && Dense(r) && Embeds(w, p, m) && Grounded(w, m)
    requires p.Effect() == r.Effect() && w.Reads(sink).Some? && !Inside(m, sink)
    requires sink.Slot? ==> sink.node < |w.boxes|
    ensures Spliced(w, r, m).Has(Repointed(r, Back(w, r, m), sink, w.Reads(sink).value))
  {
    hide Full; hide Spliced;
    var was := w.Reads(sink).value;
    match ServedBy(m.outputs, sink) {
      case Some(j) =>
        OutputsHeld(r, j);
        CarriedIsHeld(w, r, m, r.outputs[j]);
      case None =>
        if PortInside(m, was) {
          var k: NodeId :| k < |m.nodes| && m.nodes[k] == was.node;
          var j := LooseEndsServed(w, p, m, sink, k, was.port);
        }
        SplicedHas(w, r, m, was);
    }
  }

  // ---- meaning ----

  /** The two sides of a law mean the same under this reading. */
  ghost predicate LawUnder(p: Wiring, r: Wiring, rd: Reading) {
    && p.Whole() && r.Whole() && p.Effect() == r.Effect()
    && forall env: seq<Value> | |env| == p.inputs :: Meaning(p, rd, env) == Meaning(r, rd, env)
  }

  lemma SameKindAnswers(a: Kind, b: Kind, branches: seq<BranchId>, rd: Reading, args: seq<Value>)
    requires SameKind(a, b, branches) && |args| == a.Effect().inputs
    ensures a.Effect() == b.Effect() && BoxAnswer(a, rd, args) == BoxAnswer(b, rd, args)
  {
  }

  /** The host's values, read through the embedding. */
  ghost function Pulled(v: Valuation, p: Wiring, m: Match): Valuation {
    imap src: Source | p.Has(src) :: ValueOf(v, Image(m, src))
  }

  /** What the host computes at a matched subgraph is what the pattern computes there. */
  lemma PulledSolves(w: Wiring, p: Wiring, m: Match, rd: Reading, env: seq<Value>, v: Valuation)
    requires w.Sound() && p.Sound() && Embeds(w, p, m) && Solves(w, rd, env, v)
    ensures Solves(p, rd, ValuesOf(v, m.inputs), Pulled(v, p, m))
  {
    hide Full;
    var u := Pulled(v, p, m);
    forall k: NodeId | p.Live(k) ensures BoxSolved(p.At(k), k, rd, u) {
      assert BoxFits(w, p, m, k);
      var box, host := p.At(k), w.At(m.nodes[k]);
      assert BoxSolved(host, m.nodes[k], rd, v);
      Wirings.Readable(p, k);
      assert ValuesOf(u, box.inputs) == ValuesOf(v, host.inputs);
      SameKindAnswers(box.kind, host.kind, m.branches, rd, ValuesOf(u, box.inputs));
      var n := box.kind.Effect().outputs;
      forall port: nat | port < n ensures ValueOf(u, Ports(k, n)[port]) == ValueOf(v, Ports(m.nodes[k], n)[port]) {
        assert p.Has(Port(k, port));
      }
      assert ValuesOf(u, Ports(k, n)) == ValuesOf(v, Ports(m.nodes[k], n));
    }
    forall i: nat | i < p.inputs ensures ValueOf(u, Inputs(p.inputs)[i]) == ValuesOf(v, m.inputs)[i] {
      assert p.Has(Input(i));
    }
    assert ValuesOf(u, Inputs(p.inputs)) == ValuesOf(v, m.inputs);
  }

  /** The host's values with the replacement's own where the replacement went in. */
  ghost function Grafted(w: Wiring, r: Wiring, m: Match, v: Valuation, u: Valuation): Valuation {
    imap src: Source | Spliced(w, r, m).Has(src) ::
      if src.Port? && src.node >= |w.boxes| then ValueOf(u, Port(src.node - |w.boxes|, src.port)) else ValueOf(v, src)
  }

  lemma GraftedAt(w: Wiring, r: Wiring, m: Match, v: Valuation, u: Valuation, src: Source)
    requires Spliced(w, r, m).Has(src)
    ensures ValueOf(Grafted(w, r, m, v, u), src) ==
      if src.Port? && src.node >= |w.boxes| then ValueOf(u, Port(src.node - |w.boxes|, src.port)) else ValueOf(v, src)
  {
    hide Spliced;
  }

  lemma CarriedValue(w: Wiring, r: Wiring, m: Match, v: Valuation, u: Valuation, rd: Reading, src: Source)
    requires r.Sound() && Dense(r) && r.Has(src) && |m.inputs| == r.inputs && w.Sound() && Grounded(w, m)
    requires forall i | 0 <= i < |m.inputs| :: !PortInside(m, m.inputs[i])
    requires Solves(r, rd, ValuesOf(v, m.inputs), u)
    ensures ValueOf(Grafted(w, r, m, v, u), Image(Back(w, r, m), src)) == ValueOf(u, src)
  {
    hide Spliced; hide Grafted; hide Solves; hide Wiring.Sound;
    CarriedIsHeld(w, r, m, src);
    GraftedAt(w, r, m, v, u, Image(Back(w, r, m), src));
    match src
    case Input(i) =>
      assert w.Has(m.inputs[i]);
      InputsGiven(r, rd, ValuesOf(v, m.inputs), u, i);
    case Port(k, port) =>
  }

  /** A re-pointed sink reads the value it read before. */
  lemma RepointedValue(
    w: Wiring, p: Wiring, r: Wiring, m: Match, v: Valuation, u: Valuation, rd: Reading, env: seq<Value>, sink: Sink)
    requires w.Sound() && Embeds(w, p, m) && Grounded(w, m) && Dense(r) && LawUnder(p, r, rd)
    requires Solves(w, rd, env, v) && Solves(r, rd, ValuesOf(v, m.inputs), u)
    requires w.Reads(sink).Some? && !Inside(m, sink) && (sink.Slot? ==> sink.node < |w.boxes|)
    ensures ValueOf(Grafted(w, r, m, v, u), Repointed(r, Back(w, r, m), sink, w.Reads(sink).value))
      == ValueOf(v, w.Reads(sink).value)
  {
    hide Full; hide Spliced; hide Grafted; hide Solves; hide Wiring.Acyclic;
    var was := w.Reads(sink).value;
    RepointedIsHeld(w, p, r, m, sink);
    match ServedBy(m.outputs, sink) {
      case Some(j) =>
        var args := ValuesOf(v, m.inputs);
        ServedIsOutside(w, p, m, sink);
        OutputsHeld(r, j);
        OutputsHeld(p, j);
        CarriedValue(w, r, m, v, u, rd, r.outputs[j]);
        PulledSolves(w, p, m, rd, env, v);
        MeaningIs(p, rd, args, Pulled(v, p, m));
        MeaningIs(r, rd, args, u);
        assert Meaning(p, rd, args)[j] == Meaning(r, rd, args)[j];
      case None =>
        GraftedAt(w, r, m, v, u, was);
    }
  }

  /** The grafted values solve the result. */
  lemma GraftedSolves(
    w: Wiring, p: Wiring, r: Wiring, m: Match, rd: Reading, env: seq<Value>, v: Valuation, u: Valuation)
    requires w.Sound() && Embeds(w, p, m) && Grounded(w, m) && Dense(r) && LawUnder(p, r, rd)
    requires Solves(w, rd, env, v) && Solves(r, rd, ValuesOf(v, m.inputs), u)
    ensures Spliced(w, r, m).Sound() && Solves(Spliced(w, r, m), rd, env, Grafted(w, r, m, v, u))
  {
    hide Full; hide BoxFits; hide Serves; hide Survivor; hide Arrival; hide Grafted; hide Wiring.Sound;
    hide Wiring.Acyclic;
    SpliceSound(w, p, r, m);
    var s := Spliced(w, r, m);
    var g := Grafted(w, r, m, v, u);
    assert s.inputs == w.inputs;
    hide Spliced;
    forall i: nat | i < w.inputs ensures ValueOf(g, Input(i)) == ValueOf(v, Input(i)) {
      SplicedHas(w, r, m, Input(i));
      GraftedAt(w, r, m, v, u, Input(i));
    }
    assert ValuesOf(g, Inputs(s.inputs)) == ValuesOf(v, Inputs(w.inputs));
    forall id: NodeId | s.Live(id) ensures BoxSolved(s.At(id), id, rd, g) {
      BoxStillSolved(w, p, r, m, rd, env, v, u, id);
    }
  }

  lemma BoxStillSolved(
    w: Wiring, p: Wiring, r: Wiring, m: Match, rd: Reading, env: seq<Value>, v: Valuation, u: Valuation, id: NodeId)
    requires w.Sound() && Embeds(w, p, m) && Grounded(w, m) && Dense(r) && LawUnder(p, r, rd)
    requires Solves(w, rd, env, v) && Solves(r, rd, ValuesOf(v, m.inputs), u) && Spliced(w, r, m).Live(id)
    ensures BoxSolved(Spliced(w, r, m).At(id), id, rd, Grafted(w, r, m, v, u))
  {
    hide Full; hide BoxFits; hide Serves; hide Survivor; hide Arrival; hide Grafted; hide Wiring.Acyclic; hide Spliced;
    hide BoxSolved; hide Solves; hide Back;
    SplicedAt(w, r, m, id);
    if id >= |w.boxes| {
      var k := id - |w.boxes|;
      ArrivalSolved(w, r, m, rd, v, u, k);
      assert |w.boxes| + k == id;
    } else {
      SurvivorSolved(w, p, r, m, rd, env, v, u, id);
    }
  }

  lemma ArrivalSolved(w: Wiring, r: Wiring, m: Match, rd: Reading, v: Valuation, u: Valuation, k: NodeId)
    requires w.Sound() && r.Sound() && Dense(r) && Grounded(w, m) && k < |r.boxes| && |m.inputs| == r.inputs
    requires forall i | 0 <= i < |m.inputs| :: !PortInside(m, m.inputs[i])
    requires Solves(r, rd, ValuesOf(v, m.inputs), u)
    ensures |Arrival(Back(w, r, m), r.At(k)).inputs| == Arrival(Back(w, r, m), r.At(k)).kind.Effect().inputs
    ensures BoxSolved(Arrival(Back(w, r, m), r.At(k)), |w.boxes| + k, rd, Grafted(w, r, m, v, u))
  {
    hide Spliced; hide Grafted; hide Rename;
    var g, back, box := Grafted(w, r, m, v, u), Back(w, r, m), r.At(k);
    assert r.Live(k) && BoxSolved(box, k, rd, u);
    RenameAnswers(box.kind, back.branches, rd, ValuesOf(u, box.inputs));
    Wirings.Readable(r, k);
    forall q: nat | q < |box.inputs| ensures ValueOf(g, Image(back, box.inputs[q])) == ValueOf(u, box.inputs[q]) {
      CarriedValue(w, r, m, v, u, rd, box.inputs[q]);
    }
    assert ValuesOf(g, Images(back, box.inputs)) == ValuesOf(u, box.inputs);
    var n := box.kind.Effect().outputs;
    forall port: nat | port < n ensures ValueOf(g, Ports(|w.boxes| + k, n)[port]) == ValueOf(u, Ports(k, n)[port]) {
      SplicedHas(w, r, m, Port(|w.boxes| + k, port));
      GraftedAt(w, r, m, v, u, Port(|w.boxes| + k, port));
    }
    assert ValuesOf(g, Ports(|w.boxes| + k, n)) == ValuesOf(u, Ports(k, n));
  }

  lemma SurvivorSolved(
    w: Wiring, p: Wiring, r: Wiring, m: Match, rd: Reading, env: seq<Value>, v: Valuation, u: Valuation, id: NodeId)
    requires w.Sound() && Embeds(w, p, m) && Grounded(w, m) && Dense(r) && LawUnder(p, r, rd)
    requires Solves(w, rd, env, v) && Solves(r, rd, ValuesOf(v, m.inputs), u)
    requires w.Live(id) && id !in m.nodes
    ensures |w.At(id).inputs| == w.At(id).kind.Effect().inputs
    ensures BoxSolved(Survivor(r, Back(w, r, m), id, w.At(id)), id, rd, Grafted(w, r, m, v, u))
  {
    hide Spliced; hide Grafted; hide Full; hide LawUnder; hide Repointed;
    var g, back, box := Grafted(w, r, m, v, u), Back(w, r, m), w.At(id);
    assert BoxSolved(box, id, rd, v);
    var mine := Survivor(r, back, id, box);
    forall q: nat | q < |box.inputs| ensures ValueOf(g, mine.inputs[q]) == ValueOf(v, box.inputs[q]) {
      RepointedValue(w, p, r, m, v, u, rd, env, Slot(id, q));
    }
    assert ValuesOf(g, mine.inputs) == ValuesOf(v, box.inputs);
    var n := box.kind.Effect().outputs;
    forall port: nat | port < n ensures ValueOf(g, Ports(id, n)[port]) == ValueOf(v, Ports(id, n)[port]) {
      SplicedHas(w, r, m, Port(id, port));
      GraftedAt(w, r, m, v, u, Port(id, port));
    }
    assert ValuesOf(g, Ports(id, n)) == ValuesOf(v, Ports(id, n));
  }

  /** Putting one side of a law for the other, anywhere it embeds, changes nothing a graph means. */
  lemma SpliceMeans(w: Wiring, p: Wiring, r: Wiring, m: Match, rd: Reading, env: seq<Value>)
    requires w.Whole() && Embeds(w, p, m) && Grounded(w, m) && Dense(r) && LawUnder(p, r, rd)
    requires Spliced(w, r, m).Whole() && |env| == w.inputs
    ensures Meaning(Spliced(w, r, m), rd, env) == Meaning(w, rd, env)
  {
    hide Full; hide Wiring.Acyclic; hide Solves; hide BoxFits; hide Serves;
    var s := Spliced(w, r, m);
    var v := HasSolution(w, rd, env);
    var u := HasSolution(r, rd, ValuesOf(v, m.inputs));
    var g := Grafted(w, r, m, v, u);
    GraftedSolves(w, p, r, m, rd, env, v, u);
    MeaningIs(w, rd, env, v);
    MeaningIs(s, rd, env, g);
    forall i: nat | i < |w.outputs| ensures ValueOf(g, s.outputs[i]) == ValueOf(v, w.outputs[i]) {
      RepointedValue(w, p, r, m, v, u, rd, env, Output(i));
    }
  }
}
