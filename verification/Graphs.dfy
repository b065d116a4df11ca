/** The graph itself: every link written at both ends, and edited in place. */
module Graphs {
  import opened Wrappers
  import opened Wirings
  import opened Splices

  /** A box with one source per input port and the readers of each output port. */
  datatype Node = Node(kind: Kind, inputs: seq<Source>, outputs: seq<seq<Sink>>)

  datatype Store = Store(nodes: seq<Option<Node>>, inputs: seq<seq<Sink>>, outputs: seq<Source>, branches: nat) {
    /** The links as their readers write them. */
    function Wiring(): Wiring {
      Wirings.Wiring(
        seq(|nodes|, (id: nat) requires id < |nodes| =>
          match nodes[id] case Some(node) => Some(Box(node.kind, node.inputs)) case None => None),
        |inputs|, outputs, branches)
    }

    /** The links as their producers write them. */
    function Sinks(src: Source): seq<Sink> {
      match src
      case Input(i) => if i < |inputs| then inputs[i] else []
      case Port(id, port) =>
        if id < |nodes| && nodes[id].Some?
          && port < |nodes[id].value.outputs| then nodes[id].value.outputs[port] else []
    }

    ghost predicate Ported() {
      forall id | 0 <= id < |nodes| && nodes[id].Some? ::
        |nodes[id].value.outputs| == nodes[id].value.kind.Effect().outputs
    }

    /** Every reader is listed by what it reads, once, and nothing else is, except for what is still `loose`. */
    ghost predicate ListedBut(loose: iset<Sink>) {
      forall src, sink | Wiring().Has(src) :: Listed(src, sink, loose)
    }

    ghost predicate Listed(src: Source, sink: Sink, loose: iset<Sink>) {
      multiset(Sinks(src))[sink] == if Wiring().Reads(sink) == Some(src) && sink !in loose then 1 else 0
    }

    /** The two ends of every link agree. */
    ghost predicate Linked() {
      Ported() && ListedBut(iset{})
    }

    /** Sets the source written at `sink`, and no reader list. */
    function Wrote(sink: Sink, src: Source): Store
      requires Wiring().Reads(sink).Some?
    {
      match sink
      case Output(i) => this.(outputs := outputs[i := src])
      case Slot(id, port) =>
        var node := nodes[id].value;
        this.(nodes := nodes[id := Some(node.(inputs := node.inputs[port := src]))])
    }

    /** The other end: who reads `src`. */
    function WithSinks(src: Source, sinks: seq<Sink>): Store
      requires Ported() && Wiring().Has(src)
    {
      match src
      case Input(i) => this.(inputs := inputs[i := sinks])
      case Port(id, port) =>
        var node := nodes[id].value;
        this.(nodes := nodes[id := Some(node.(outputs := node.outputs[port := sinks]))])
    }

    lemma WithSinksOnly(src: Source, sinks: seq<Sink>)
      requires Ported() && Wiring().Has(src)
      ensures WithSinks(src, sinks).Wiring() == Wiring() && WithSinks(src, sinks).Ported()
      ensures forall s | Wiring().Has(s) :: WithSinks(src, sinks).Sinks(s) == if s == src then sinks else Sinks(s)
    {
      assert WithSinks(src, sinks).Wiring().boxes == Wiring().boxes;
    }

    lemma WroteOnly(sink: Sink, src: Source)
      requires Ported() && Wiring().Reads(sink).Some?
      ensures Wrote(sink, src).Ported() && Wrote(sink, src).Wiring() == Rewired(Wiring(), sink, src)
      ensures forall s :: Wrote(sink, src).Wiring().Has(s) <==> Wiring().Has(s)
      ensures forall s :: Wrote(sink, src).Sinks(s) == Sinks(s)
      ensures forall t :: Wrote(sink, src).Wiring().Reads(t) == if t == sink then Some(src) else Wiring().Reads(t)
    {
      assert Wrote(sink, src).Wiring().boxes == Rewired(Wiring(), sink, src).boxes;
    }
  }

  /** A wiring with one sink reading something else. */
  function Rewired(w: Wiring, sink: Sink, src: Source): Wiring
    requires w.Reads(sink).Some?
  {
    match sink
    case Output(i) => w.(outputs := w.outputs[i := src])
    case Slot(id, port) => w.(boxes := w.boxes[id := Some(w.At(id).(inputs := w.At(id).inputs[port := src]))])
  }

  /** No port is read before its box is there. */
  ghost predicate Bounded(w: Wiring) {
    forall sink | w.Reads(sink).Some? && w.Reads(sink).value.Port? :: w.Reads(sink).value.node < |w.boxes|
  }

  function WithBox(w: Wiring, box: Box): Wiring {
    w.(boxes := w.boxes + [Some(box)])
  }

  function Without(w: Wiring, gone: seq<NodeId>): Wiring {
    w.(boxes := seq(|w.boxes|, i requires 0 <= i < |w.boxes| => if i in gone then None else w.boxes[i]))
  }

  ghost function SlotsFrom(id: NodeId, k: nat): iset<Sink> {
    iset sink: Sink | sink.Slot? && sink.node == id && sink.port >= k
  }

  ghost function OutputsFrom(k: nat): iset<Sink> {
    iset sink: Sink | sink.Output? && sink.i >= k
  }

  /** The links into boxes on their way out, the first `k` of them done and `port` ports of the next. */
  ghost function LinksFrom(w: Wiring, gone: seq<NodeId>, k: nat, port: nat): iset<Sink> {
    iset sink: Sink | sink.Slot? && w.Reads(sink).Some?
      && !(w.Reads(sink).value.Port? && w.Reads(sink).value.node in gone)
      && (sink.node in gone[..if k < |gone| then k else |gone|]
        || (k < |gone| && sink.node == gone[k] && sink.port < port))
  }

  /** No box of a replacement reads a box listed after it. */
  ghost predicate InOrder(r: Wiring) {
    forall k: NodeId, q | r.Live(k) && 0 <= q < |r.At(k).inputs| ::
      r.At(k).inputs[q].Port? ==> r.At(k).inputs[q].node < k
  }

  /** A wiring with the first `k` boxes of a replacement added. */
  function Extended(w: Wiring, r: Wiring, back: Match, k: nat): Wiring
    requires Dense(r) && k <= |r.boxes|
  {
    w.(boxes := w.boxes + seq(k, (i: nat) requires i < k => Some(Arrival(back, r.At(i)))))
  }

  /** A wiring with the sinks handed to the first boundary outputs re-pointed. */
  function Served(w: Wiring, r: Wiring, back: Match): Wiring {
    w.(
      boxes := seq(|w.boxes|, (id: nat) requires id < |w.boxes| =>
        if w.Live(id) then Some(Survivor(r, back, id, w.At(id))) else None),
      outputs := seq(|w.outputs|, (i: nat) requires i < |w.outputs| => Repointed(r, back, Output(i), w.outputs[i])))
  }

  lemma ServedReads(w: Wiring, r: Wiring, back: Match, sink: Sink)
    ensures Served(w, r, back).Reads(sink) ==
      match w.Reads(sink) case Some(was) => Some(Repointed(r, back, sink, was)) case None => None
  {
  }

  /** Wirings with the same boxes in the same places, reading the same things. */
  lemma SameReads(a: Wiring, b: Wiring)
    requires |a.boxes| == |b.boxes| && a.inputs == b.inputs && |a.outputs| == |b.outputs| && a.branches == b.branches
    requires forall id | 0 <= id < |a.boxes| :: a.Live(id) <==> b.Live(id)
    requires forall id | a.Live(id) :: a.At(id).kind == b.At(id).kind && |a.At(id).inputs| == |b.At(id).inputs|
    requires forall sink :: a.Reads(sink) == b.Reads(sink)
    ensures a == b
  {
    forall id: NodeId | id < |a.boxes| ensures a.boxes[id] == b.boxes[id] {
      if a.Live(id) {
        forall port: nat | port < |a.At(id).inputs| ensures a.At(id).inputs[port] == b.At(id).inputs[port] {
          assert a.Reads(Slot(id, port)) == b.Reads(Slot(id, port));
        }
        assert a.At(id).inputs == b.At(id).inputs;
      }
    }
    assert a.boxes == b.boxes;
    forall i: nat | i < |a.outputs| ensures a.outputs[i] == b.outputs[i] {
      assert a.Reads(Output(i)) == b.Reads(Output(i));
    }
  }

  lemma ServedOneMore(w: Wiring, r: Wiring, back: Match, done: seq<seq<Sink>>, last: seq<Sink>, sink: Sink)
    requires w.Reads(sink).Some? && |done| < |r.outputs|
    ensures Served(w, r, back.(outputs := done + [last])).Reads(sink).Some?
    ensures Rewired(Served(w, r, back.(outputs := done + [last])), sink, Image(back, r.outputs[|done|]))
      == Served(w, r, back.(outputs := done + [last + [sink]]))
  {
    var before, after := back.(outputs := done + [last]), back.(outputs := done + [last + [sink]]);
    var a := Served(w, r, before);
    ServedReads(w, r, before, sink);
    var b, c := Rewired(a, sink, Image(back, r.outputs[|done|])), Served(w, r, after);
    assert (done + [last])[..|done|] == done && (done + [last + [sink]])[..|done|] == done;
    forall t ensures b.Reads(t) == c.Reads(t) {
      ServedReads(w, r, before, t);
      ServedReads(w, r, after, t);
      RewiredReads(a, sink, Image(back, r.outputs[|done|]), t);
      if w.Reads(t).Some? {
        ImagesAlike(before, after, r);
      }
    }
    SameReads(b, c);
  }

  lemma ServedNone(w: Wiring, r: Wiring, back: Match)
    ensures Served(w, r, back.(outputs := [])) == w
  {
    var none := back.(outputs := []);
    forall t ensures Served(w, r, none).Reads(t) == w.Reads(t) {
      ServedReads(w, r, none, t);
    }
    SameReads(Served(w, r, none), w);
  }

  lemma ServedEmpty(w: Wiring, r: Wiring, back: Match, done: seq<seq<Sink>>)
    ensures Served(w, r, back.(outputs := done + [[]])) == Served(w, r, back.(outputs := done))
  {
    var a, b := back.(outputs := done + [[]]), back.(outputs := done);
    assert (done + [[]])[..|done|] == done;
    forall t ensures Served(w, r, a).Reads(t) == Served(w, r, b).Reads(t) {
      ServedReads(w, r, a, t);
      ServedReads(w, r, b, t);
      ImagesAlike(a, b, r);
    }
    SameReads(Served(w, r, a), Served(w, r, b));
  }

  lemma ServedHas(w: Wiring, r: Wiring, back: Match, src: Source)
    ensures Served(w, r, back).Has(src) <==> w.Has(src)
  {
  }

  lemma SplicedBranches(w: Wiring, r: Wiring, m: Match)
    ensures Spliced(w, r, m).branches
      == if r.branches > |m.branches| then w.branches + r.branches - |m.branches| else w.branches
  {
  }

  lemma ExtendedHas(w: Wiring, r: Wiring, back: Match, k: nat, src: Source)
    requires Dense(r) && k <= |r.boxes|
    ensures Extended(w, r, back, k).Has(src) <==>
      if src.Port? && src.node >= |w.boxes| then
        src.node < |w.boxes| + k && src.port < Rename(r.At(src.node - |w.boxes|).kind, back.branches).Effect().outputs
      else w.Has(src)
  {
  }

  lemma ExtendedByOne(w: Wiring, r: Wiring, back: Match, k: nat)
    requires Dense(r) && k < |r.boxes|
    ensures WithBox(Extended(w, r, back, k), Arrival(back, r.At(k))) == Extended(w, r, back, k + 1)
  {
  }

  lemma ExtendedReads(w: Wiring, gone: seq<NodeId>, r: Wiring, back: Match, branches: nat, sink: Sink)
    requires Dense(r)
    ensures Extended(Without(w, gone).(branches := branches), r, back, |r.boxes|).Reads(sink) ==
      if sink.Slot? && sink.node >= |w.boxes| then
        (match r.Reads(Slot(sink.node - |w.boxes|, sink.port)) case Some(src) => Some(Image(back, src)) case None =>
          None)
      else if sink.Slot? && sink.node in gone then None
      else w.Reads(sink)
  {
  }

  lemma ServedShape(w: Wiring, r: Wiring, back: Match)
    ensures var s := Served(w, r, back);
      && |s.boxes| == |w.boxes| && s.inputs == w.inputs && |s.outputs| == |w.outputs| && s.branches == w.branches
      && (forall id: NodeId :: s.Live(id) <==> w.Live(id))
      && (forall id: NodeId | w.Live(id) :: s.At(id).kind == w.At(id).kind && |s.At(id).inputs| == |w.At(id).inputs|)
  {
  }

  /** Out, in and re-pointed, one after the other, is the splice. */
  lemma SplicedInSteps(w: Wiring, p: Wiring, r: Wiring, m: Match)
    requires w.Sound() && Dense(r) && Embeds(w, p, m) && p.Effect() == r.Effect()
    ensures var back := Back(w, r, m);
      var bare := Without(w, m.nodes).(branches := Spliced(w, r, m).branches);
      Served(Extended(bare, r, back, |r.boxes|), r, back) == Spliced(w, r, m)
  {
    hide Full; hide BoxFits; hide Serves;
    var back := Back(w, r, m);
    var b := Spliced(w, r, m);
    var grown := Extended(Without(w, m.nodes).(branches := b.branches), r, back, |r.boxes|);
    var a := Served(grown, r, back);
    ServedShape(grown, r, back);
    forall sink ensures a.Reads(sink) == b.Reads(sink) {
      StepsRead(w, p, r, m, b.branches, sink);
    }
    hide Served;
    SameReads(a, b);
  }

  /** With the old boxes out and the new ones in, every loose end is there, and so is what it should read. */
  lemma LooseEndsReady(w: Wiring, p: Wiring, r: Wiring, m: Match, branches: nat)
    requires w.Sound() && r.Sound() && Dense(r) && Embeds(w, p, m) && Grounded(w, m) && p.Effect() == r.Effect()
    ensures var back := Back(w, r, m);
      var grown := Extended(Without(w, m.nodes).(branches := branches), r, back, |r.boxes|);
      && (forall j, sink | 0 <= j < |back.outputs| && sink in back.outputs[j] :: grown.Reads(sink).Some?)
      && (forall j | 0 <= j < |r.outputs| :: grown.Has(Image(back, r.outputs[j])))
  {
    hide Full; hide BoxFits; hide Extended;
    var back := Back(w, r, m);
    var bare := Without(w, m.nodes).(branches := branches);
    var grown := Extended(bare, r, back, |r.boxes|);
    forall j: nat, sink | j < |back.outputs| && sink in back.outputs[j] ensures grown.Reads(sink).Some? {
      assert Serves(w, p, m, j) && w.Reads(sink).Some?;
      ExtendedReads(w, m.nodes, r, back, branches, sink);
    }
    forall j: nat | j < |r.outputs| ensures grown.Has(Image(back, r.outputs[j])) {
      OutputsHeld(r, j);
      ExtendedHas(bare, r, back, |r.boxes|, Image(back, r.outputs[j]));
      match r.outputs[j]
      case Input(i) => assert w.Has(m.inputs[i]) && !PortInside(m, m.inputs[i]);
      case Port(k, port) => RenameKeepsShape(r.At(k).kind, back.branches);
    }
  }

  lemma StepsRead(w: Wiring, p: Wiring, r: Wiring, m: Match, branches: nat, sink: Sink)
    requires w.Sound() && Dense(r) && Embeds(w, p, m) && p.Effect() == r.Effect()
    ensures var back := Back(w, r, m);
      var grown := Extended(Without(w, m.nodes).(branches := branches), r, back, |r.boxes|);
      Served(grown, r, back).Reads(sink) == Spliced(w, r, m).Reads(sink)
  {
    hide Full; hide BoxFits; hide Served; hide Spliced; hide Extended; hide Without;
    var back := Back(w, r, m);
    var grown := Extended(Without(w, m.nodes).(branches := branches), r, back, |r.boxes|);
    ServedReads(grown, r, back, sink);
    ExtendedReads(w, m.nodes, r, back, branches, sink);
    SplicedReads(w, r, m, sink);
    var j := ServedBy(m.outputs, sink);
    if j.Some? {
      assert Serves(w, p, m, j.value) && w.Reads(sink).Some?;
    }
  }

  lemma ImagesAlike(a: Match, b: Match, r: Wiring)
    requires a.nodes == b.nodes && a.inputs == b.inputs
    ensures forall src :: Image(a, src) == Image(b, src)
  {
  }

  lemma RewiredReads(w: Wiring, sink: Sink, src: Source, t: Sink)
    requires w.Reads(sink).Some?
    ensures Rewired(w, sink, src).Reads(t) == if t == sink then Some(src) else w.Reads(t)
  {
  }

  function Position(s: seq<Sink>, sink: Sink): Option<nat>
    ensures Position(s, sink).Some? ==> Position(s, sink).value < |s| && s[Position(s, sink).value] == sink
    ensures Position(s, sink).None? ==> sink !in s
  {
    if s == [] then None
    else if s[0] == sink then Some(0)
    else (match Position(s[1..], sink) case Some(k) => Some(k + 1) case None => None)
  }

  /** A list with one mention of a reader forgotten. */
  function Forgot(s: seq<Sink>, sink: Sink): seq<Sink> {
    match Position(s, sink)
    case Some(k) => s[..k] + s[k + 1..]
    case None => s
  }

  lemma ForgotCounts(s: seq<Sink>, sink: Sink)
    ensures multiset(Forgot(s, sink)) == multiset(s) - multiset{sink}
  {
    if Position(s, sink).Some? {
      var k := Position(s, sink).value;
      assert s == s[..k] + [s[k]] + s[k + 1..];
    }
  }

  class Graph {
    var nodes: seq<Option<Node>>
    var inputs: seq<seq<Sink>>
    var outputs: seq<Source>
    var branches: nat

    function S(): Store
      reads this
    {
      Store(nodes, inputs, outputs, branches)
    }

    function W(): Wiring
      reads this
    {
      S().Wiring()
    }

    constructor Empty(n: nat)
      ensures W() == Wiring([], n, [], 0) && S().Linked()
    {
      nodes, inputs, outputs, branches := [], seq(n, i => []), [], 0;
      new;
      assert W() == Wiring([], n, [], 0);
      forall src, sink | W().Has(src) ensures S().Listed(src, sink, iset{}) {
        assert S().Sinks(src) == [];
      }
    }

    /** Writes who reads a port. */
    method SetSinks(src: Source, sinks: seq<Sink>)
      requires S().Ported() && W().Has(src)
      modifies this
      ensures S() == old(S()).WithSinks(src, sinks)
    {
      match src {
        case Input(i) =>
          inputs := inputs[i := sinks];
        case Port(id, port) =>
          var node := nodes[id].value;
          nodes := nodes[id := Some(node.(outputs := node.outputs[port := sinks]))];
      }
    }

    /** Writes what one sink reads. */
    method SetSource(sink: Sink, src: Source)
      requires W().Reads(sink).Some?
      modifies this
      ensures S() == old(S()).Wrote(sink, src)
    {
      match sink {
        case Output(i) =>
          outputs := outputs[i := src];
        case Slot(id, port) =>
          var node := nodes[id].value;
          nodes := nodes[id := Some(node.(inputs := node.inputs[port := src]))];
      }
    }

    /** Takes one sink off the reader list of `src`; the sink itself still names `src`. */
    method Unlink(src: Source, sink: Sink, ghost loose: iset<Sink>)
      requires S().Ported() && S().ListedBut(loose) && W().Has(src) && W().Reads(sink) == Some(src)
      modifies this
      ensures W() == old(W()) && S().Ported() && S().ListedBut(loose + iset{sink})
    {
      ghost var was := S();
      var sinks := S().Sinks(src);
      ForgotCounts(sinks, sink);
      SetSinks(src, Forgot(sinks, sink));
      was.WithSinksOnly(src, Forgot(sinks, sink));
      forall s, t | W().Has(s) ensures S().Listed(s, t, loose + iset{sink}) {
        assert was.Listed(s, t, loose);
      }
    }

    /** Lists a reader whose link was loose. */
    method Link(src: Source, sink: Sink, ghost loose: iset<Sink>)
      requires S().Ported() && S().ListedBut(loose) && W().Has(src) && W().Reads(sink) == Some(src) && sink in loose
      modifies this
      ensures W() == old(W()) && S().Ported() && S().ListedBut(loose - iset{sink})
    {
      ghost var was := S();
      var sinks := S().Sinks(src);
      SetSinks(src, sinks + [sink]);
      was.WithSinksOnly(src, sinks + [sink]);
      forall s, t | W().Has(s) ensures S().Listed(s, t, loose - iset{sink}) {
        assert was.Listed(s, t, loose);
      }
    }

    /** One sink taken from whatever it reads to `target`, both ends of both links kept up. */
    method Repoint(sink: Sink, target: Source)
      requires S().Linked() && W().Reads(sink).Some? && W().Has(target)
      modifies this
      ensures S().Linked() && W() == Rewired(old(W()), sink, target)
    {
      var was := W().Reads(sink).value;
      if W().Has(was) {
        Unlink(was, sink, iset{});
      } else {
        LooseAlready(sink);
      }
      ghost var mid := S();
      assert iset{} + iset{sink} == iset{sink};
      assert mid.ListedBut(iset{sink});
      SetSource(sink, target);
      mid.WroteOnly(sink, target);
      forall s, t | W().Has(s) ensures S().Listed(s, t, iset{sink}) {
        assert mid.Listed(s, t, iset{sink});
      }
      Link(target, sink, iset{sink});
      assert iset{sink} - iset{sink} == iset{};
    }

    /** A new box reading `sources`, and itself listed among the readers of each. */
    method Add(kind: Kind, sources: seq<Source>) returns (id: NodeId)
      requires S().Linked() && Bounded(W()) && |sources| == kind.Effect().inputs
      requires forall k | 0 <= k < |sources| :: W().Has(sources[k])
      modifies this
      ensures S().Linked() && Bounded(W()) && id == |old(nodes)|
      ensures W() == WithBox(old(W()), Box(kind, sources))
    {
      ghost var was := S();
      id := |nodes|;
      nodes := nodes + [Some(Node(kind, sources, seq(kind.Effect().outputs, i => [])))];
      AddedLoose(was, kind, sources);
      ghost var w := W();
      for k: nat := 0 to |sources|
        invariant W() == w && S().Ported() && S().ListedBut(SlotsFrom(id, k))
      {
        assert W().Reads(Slot(id, k)) == Some(sources[k]);
        Link(sources[k], Slot(id, k), SlotsFrom(id, k));
        assert SlotsFrom(id, k) - iset{Slot(id, k)} == SlotsFrom(id, k + 1);
      }
      NothingLoose(SlotsFrom(id, |sources|));
    }

    /** Makes `sources` the outputs of the graph, each output listed among the readers of its source. */
    method Close(sources: seq<Source>)
      requires S().Linked() && outputs == [] && forall k | 0 <= k < |sources| :: W().Has(sources[k])
      modifies this
      ensures S().Linked() && W() == old(W()).(outputs := sources)
    {
      ghost var was := S();
      outputs := sources;
      ghost var w := W();
      assert w == was.Wiring().(outputs := sources);
      forall src, sink | W().Has(src) ensures S().Listed(src, sink, OutputsFrom(0)) {
        assert was.Listed(src, sink, iset{});
      }
      for k: nat := 0 to |sources|
        invariant W() == w && S().Ported() && S().ListedBut(OutputsFrom(k))
      {
        Link(sources[k], Output(k), OutputsFrom(k));
        assert OutputsFrom(k) - iset{Output(k)} == OutputsFrom(k + 1);
      }
      NothingLoose(OutputsFrom(|sources|));
    }

    lemma NothingLoose(loose: iset<Sink>)
      requires S().Ported() && S().ListedBut(loose) && forall sink | sink in loose :: W().Reads(sink).None?
      ensures S().Linked()
    {
      forall s, t | W().Has(s) ensures S().Listed(s, t, iset{}) {
        assert S().Listed(s, t, loose);
      }
    }

    lemma AddedLoose(was: Store, kind: Kind, sources: seq<Source>)
      requires was.Linked() && Bounded(was.Wiring())
      requires S() == was.(nodes := was.nodes + [Some(Node(kind, sources, seq(kind.Effect().outputs, i => [])))])
      requires forall k | 0 <= k < |sources| :: was.Wiring().Has(sources[k])
      ensures W() == WithBox(was.Wiring(), Box(kind, sources)) && S().Ported() && Bounded(W())
      ensures S().ListedBut(SlotsFrom(|was.nodes|, 0))
    {
      assert W().boxes == WithBox(was.Wiring(), Box(kind, sources)).boxes;
      forall sink | W().Reads(sink).Some? && W().Reads(sink).value.Port?
        ensures W().Reads(sink).value.node < |was.nodes|
      {
        assert (sink.Slot? && sink.node == |was.nodes|) || was.Wiring().Reads(sink) == W().Reads(sink);
      }
      forall src, sink | W().Has(src) ensures S().Listed(src, sink, SlotsFrom(|was.nodes|, 0)) {
        if was.Wiring().Has(src) {
          assert was.Listed(src, sink, iset{});
        } else {
          assert S().Sinks(src) == [];
        }
      }
    }

    /** The boxes gone, and every link into them; what reads them from outside is left dangling. */
    method Cut(gone: seq<NodeId>)
      requires S().Linked() && W().Sound() && Distinct(gone) && forall k | 0 <= k < |gone| :: W().Live(gone[k])
      modifies this
      ensures S().Linked() && Bounded(W()) && W() == Without(old(W()), gone)
    {
      ghost var w := W();
      assert LinksFrom(w, gone, 0, 0) == iset{};
      for k := 0 to |gone|
        invariant W() == w && S().Ported() && S().ListedBut(LinksFrom(w, gone, k, 0))
      {
        var sources := nodes[gone[k]].value.inputs;
        assert sources == w.At(gone[k]).inputs;
        for port: nat := 0 to |sources|
          invariant W() == w && S().Ported() && S().ListedBut(LinksFrom(w, gone, k, port))
        {
          var src := sources[port];
          assert W().Reads(Slot(gone[k], port)) == Some(src);
          if !(src.Port? && src.node in gone) {
            Unlink(src, Slot(gone[k], port), LinksFrom(w, gone, k, port));
            assert LinksFrom(w, gone, k, port) + iset{Slot(gone[k], port)} == LinksFrom(w, gone, k, port + 1);
          } else {
            assert LinksFrom(w, gone, k, port) == LinksFrom(w, gone, k, port + 1);
          }
        }
        assert LinksFrom(w, gone, k, |sources|) == LinksFrom(w, gone, k + 1, 0);
      }
      ghost var was := S();
      var held := nodes;
      nodes := seq(|held|, i requires 0 <= i < |held| => if i in gone then None else held[i]);
      CutLinked(was, gone);
    }

    lemma CutLinked(was: Store, gone: seq<NodeId>)
      requires was.Ported() && was.Wiring().Sound() && was.ListedBut(LinksFrom(was.Wiring(), gone, |gone|, 0))
      requires |nodes| == |was.nodes| && forall i | 0 <= i < |nodes| ::
        nodes[i] == if i in gone then None else was.nodes[i]
      requires inputs == was.inputs && outputs == was.outputs && branches == was.branches
      ensures S().Linked() && Bounded(W()) && W() == Without(was.Wiring(), gone)
    {
      var w := was.Wiring();
      assert W().boxes == Without(w, gone).boxes;
      forall sink ensures W().Reads(sink) == if sink.Slot? && sink.node in gone then None else w.Reads(sink) {
      }
      forall src, sink | W().Has(src) ensures S().Listed(src, sink, iset{}) {
        assert w.Has(src) && S().Sinks(src) == was.Sinks(src);
        assert was.Listed(src, sink, LinksFrom(w, gone, |gone|, 0));
      }
      forall sink | W().Reads(sink).Some? ensures w.Has(W().Reads(sink).value) {
        assert w.Reads(sink) == W().Reads(sink);
      }
    }

    /** Branch ids for what goes in: the match's own, and then new ones. */
    method Mint(held: seq<BranchId>, n: nat) returns (names: seq<BranchId>)
      requires S().Linked() && Bounded(W())
      modifies `branches
      ensures S().Linked() && Bounded(W()) && names == Named(held, old(branches), n)
      ensures W() == old(W()).(branches := if n > |held| then old(branches) + n - |held| else old(branches))
    {
      ghost var w := W();
      names := held;
      while |names| < n
        invariant W() == w.(branches := branches) && branches == old(branches) + |names| - |held|
        invariant |held| <= |names| && (|names| <= n || names == held)
        invariant forall k | 0 <= k < |names| :: names[k] == if k < |held| then held[k] else old(branches) + k - |held|
        decreases n - |names|
      {
        names := names + [branches];
        branches := branches + 1;
      }
      names := names[..n];
      BranchesUnread(w);
    }

    lemma BranchesUnread(w: Wiring)
      requires W() == w.(branches := branches) && Bounded(w) && S().Ported()
      requires S().(branches := w.branches).ListedBut(iset{})
      ensures S().Linked() && Bounded(W())
    {
      var was := S().(branches := w.branches);
      forall src, sink | W().Has(src) ensures S().Listed(src, sink, iset{}) {
        assert was.Wiring().boxes == W().boxes && was.Wiring().Has(src) && was.Listed(src, sink, iset{});
      }
      forall sink | W().Reads(sink).Some? && W().Reads(sink).value.Port?
        ensures W().Reads(sink).value.node < |W().boxes|
      {
        assert w.Reads(sink) == W().Reads(sink);
      }
    }

    /** In place, what `Spliced` says: matched boxes gone, new ones added, outside readers moved over. */
    method Splice(r: Wiring, m: Match, ghost p: Wiring) returns (back: Match)
      requires S().Linked() && W().Sound() && r.Sound() && Dense(r) && InOrder(r)
      requires Embeds(W(), p, m) && Grounded(W(), m) && p.Effect() == r.Effect()
      modifies this
      ensures S().Linked() && W() == Spliced(old(W()), r, m) && back == Back(old(W()), r, m)
    {
      ghost var w := W();
      SplicedBranches(w, r, m);
      hide Full; hide BoxFits; hide Serves; hide Store.Linked; hide Spliced;
      var base := |nodes|;
      Cut(m.nodes);
      var names := Mint(m.branches, r.branches);
      back := Match(seq(|r.boxes|, (k: nat) => base + k), m.inputs, m.outputs, names);
      ghost var bare := W();
      for k: nat := 0 to |r.boxes|
        invariant S().Linked() && Bounded(W()) && |nodes| == base + k && W() == Extended(bare, r, back, k)
      {
        var box := Arrival(back, r.At(k));
        ArrivalFits(bare, r, back, k);
        var id := Add(box.kind, box.inputs);
        ExtendedByOne(bare, r, back, k);
      }
      LooseEndsReady(w, p, r, m, bare.branches);
      Reconnect(r, back);
      SplicedInSteps(w, p, r, m);
    }

    lemma ArrivalFits(bare: Wiring, r: Wiring, back: Match, k: nat)
      requires r.Sound() && Dense(r) && InOrder(r) && k < |r.boxes| && W() == Extended(bare, r, back, k)
      requires back.nodes == seq(|r.boxes|, (i: nat) => |bare.boxes| + i) && |back.inputs| == r.inputs
      requires forall i | 0 <= i < |back.inputs| :: bare.Has(back.inputs[i])
      ensures var box := Arrival(back, r.At(k));
        |box.inputs| == box.kind.Effect().inputs && forall q | 0 <= q < |box.inputs| :: W().Has(box.inputs[q])
    {
      var box := Arrival(back, r.At(k));
      RenameKeepsShape(r.At(k).kind, back.branches);
      assert r.Live(k);
      Wirings.Readable(r, k);
      forall q: nat | q < |box.inputs| ensures W().Has(box.inputs[q]) {
        match r.At(k).inputs[q]
        case Input(i) =>
          assert bare.Has(back.inputs[i]);
          ExtendedHas(bare, r, back, k, back.inputs[i]);
        case Port(node, port) =>
          assert r.Has(r.At(k).inputs[q]) && node < k;
          RenameKeepsShape(r.At(node).kind, back.branches);
          assert box.inputs[q] == Port(|bare.boxes| + node, port);
          ExtendedHas(bare, r, back, k, Port(|bare.boxes| + node, port));
      }
    }

    /** Everything handed to a boundary output now reads what the replacement leaves there. */
    method Reconnect(r: Wiring, back: Match)
      requires S().Linked() && |back.outputs| == |r.outputs|
      requires forall j, sink | 0 <= j < |back.outputs| && sink in back.outputs[j] :: W().Reads(sink).Some?
      requires forall j | 0 <= j < |r.outputs| :: W().Has(Image(back, r.outputs[j]))
      modifies this
      ensures S().Linked() && W() == Served(old(W()), r, back)
    {
      hide Store.Linked;
      ghost var w := W();
      ServedNone(w, r, back);
      for j := 0 to |r.outputs|
        invariant S().Linked() && W() == Served(w, r, back.(outputs := back.outputs[..j]))
      {
        var target := Image(back, r.outputs[j]);
        var sinks := back.outputs[j];
        ServedEmpty(w, r, back, back.outputs[..j]);
        for t := 0 to |sinks|
          invariant S().Linked() && W() == Served(w, r, back.(outputs := back.outputs[..j] + [sinks[..t]]))
        {
          ServedOneMore(w, r, back, back.outputs[..j], sinks[..t], sinks[t]);
          ServedHas(w, r, back.(outputs := back.outputs[..j] + [sinks[..t]]), target);
          Repoint(sinks[t], target);
          assert sinks[..t] + [sinks[t]] == sinks[..t + 1];
        }
        assert sinks[..|sinks|] == sinks && back.outputs[..j] + [sinks] == back.outputs[..j + 1];
      }
      assert back.(outputs := back.outputs[..|r.outputs|]) == back;
    }

    /** A sink that reads what is not there is listed nowhere. */
    lemma LooseAlready(sink: Sink)
      requires S().Linked() && W().Reads(sink).Some? && !W().Has(W().Reads(sink).value)
      ensures S().ListedBut(iset{sink})
    {
      forall s, t | W().Has(s) ensures S().Listed(s, t, iset{sink}) {
        assert S().Listed(s, t, iset{});
      }
    }
  }
}
