/** Every structural law spent everywhere it fires. */
module Saturation {
  import opened Wrappers
  import opened Prims
  import opened Wirings
  import opened Splices
  import opened Laws
  import opened Graphs
  import opened Steps
  import opened Renamings
  import opened Derivations
  import opened Searches

  datatype Law = LawIdElim | LawSwapElim | LawCopyElim | LawDeadNode | LawDedup

  /** Everything true of the wiring alone, the cheapest test first. */
  const STRUCTURAL: seq<Law> := [LawDeadNode, LawIdElim, LawSwapElim, LawCopyElim, LawDedup]

  /** A law's payload, read off the box it would be anchored at. */
  function RuleFor(law: Law, kind: Kind): Option<Rule> {
    match law
    case LawIdElim => if kind.Id? then Some(IdElim(kind.n)) else None
    case LawSwapElim => if kind == Kind.Op(Prim.Swap) then Some(SwapElim) else None
    case LawCopyElim => if kind.Copy? then Some(CopyElim(kind.n)) else None
    case LawDeadNode => Some(DeadNode(kind))
    case LawDedup => if EndOf(kind).Some? then None else Some(Dedup(kind))
  }

  // ---- where the laws fire ----

  /** A box a rule is here to delete. */
  predicate Structural(kind: Kind) {
    kind.Id? || kind.Copy? || kind == Kind.Op(Prim.Swap)
  }

  ghost predicate Unread(w: Wiring, id: NodeId) {
    forall sink | w.Reads(sink).Some? && w.Reads(sink).value.Port? :: w.Reads(sink).value.node != id
  }

  /** Two boxes of one kind, not the ends of a branch, reading one list of sources. */
  ghost predicate Twins(w: Wiring, a: NodeId, b: NodeId) {
    a != b && w.Live(a) && w.Live(b) && EndOf(w.At(a).kind).None? && w.At(a) == w.At(b)
  }

  ghost predicate FiresAt(w: Wiring, rule: Rule, id: NodeId) {
    rule.Structural() && Sides(rule).Some? && exists m: Match :: EmbedsFrom(w, Sides(rule).value.0, m, id)
  }

  ghost predicate EmbedsFrom(w: Wiring, p: Wiring, m: Match, id: NodeId) {
    Embeds(w, p, m) && |m.nodes| > 0 && m.nodes[0] == id
  }

  /** A pattern laid over boxes of the right kinds on one list of sources, everything else left unread. */
  ghost predicate Laid(w: Wiring, p: Wiring, m: Match) {
    && Flat(p) && Pinned(p) && Distinct(p.outputs) && Shaped(w, p, m)
    && (forall k: NodeId | k < |p.boxes| ::
      SameKind(p.At(k).kind, w.At(m.nodes[k]).kind, m.branches) && w.At(m.nodes[k]).inputs == m.inputs)
    && (forall j | 0 <= j < |p.outputs| :: m.outputs[j] == Readers(w, Image(m, p.outputs[j])))
    && (forall k: NodeId, port: nat | k < |p.boxes| && port < p.At(k).kind.Effect().outputs
      && Port(k, port) !in p.outputs ::
      Unread(w, m.nodes[k]))
  }

  lemma LaidEmbeds(w: Wiring, p: Wiring, m: Match)
    requires w.Whole() && Laid(w, p, m)
    ensures Embeds(w, p, m)
  {
    hide Full; hide Readers; hide Wiring.Acyclic;
    forall k: NodeId | k < |p.boxes| ensures BoxFits(w, p, m, k) {
      assert Images(m, p.At(k).inputs) == m.inputs;
      forall port: nat | port < p.At(k).kind.Effect().outputs
        ensures Full(w, m, Readers(p, Port(k, port)), Port(m.nodes[k], port))
      {
        LaidFull(w, p, m, k, port);
      }
    }
    forall i: nat, k | i < |m.inputs| && 0 <= k < |m.nodes|
      ensures !(m.inputs[i].Port? && m.inputs[i].node == m.nodes[k])
    {
      NotItself(w, m.nodes[k], i);
    }
    forall i: nat | i < |m.inputs| ensures !PortInside(m, m.inputs[i]) {
    }
    assert forall k | 0 <= k < |m.nodes| :: w.At(m.nodes[k]).inputs == m.inputs;
    forall j: nat | j < |p.outputs| ensures Serves(w, p, m, j) {
      var src := Image(m, p.outputs[j]);
      assert p.Has(p.outputs[j]) && PortInside(m, src);
      forall sink | sink in m.outputs[j] ensures w.Reads(sink) == Some(src) && !Inside(m, sink) {
        ReadersHas(w, src, sink);
      }
    }
  }

  lemma LaidFull(w: Wiring, p: Wiring, m: Match, k: NodeId, port: nat)
    requires Laid(w, p, m) && k < |p.boxes| && port < p.At(k).kind.Effect().outputs
    ensures Full(w, m, Readers(p, Port(k, port)), Port(m.nodes[k], port))
  {
    hide Readers; hide Want; hide WantInside; hide WantOutside;
    var readers := Readers(p, Port(k, port));
    forall r | r in readers ensures r.Output? && r.i < |p.outputs| && p.outputs[r.i] == Port(k, port) {
      ReadersHas(p, Port(k, port), r);
    }
    NoneInside(m, readers);
    WantParts(m, readers);
    if Port(k, port) in p.outputs {
      var j :| 0 <= j < |p.outputs| && p.outputs[j] == Port(k, port);
      OutsideIsOutput(p, m, j);
      var held := Readers(w, Port(m.nodes[k], port));
      ReadersDistinct(w, Port(m.nodes[k], port));
      DistinctCounts(held);
      forall sink ensures multiset(held)[sink] == if w.Reads(sink) == Some(Port(m.nodes[k], port)) then 1 else 0 {
        ReadersHas(w, Port(m.nodes[k], port), sink);
      }
    } else {
      if readers != [] {
        SomeMember(readers);
      }
      NothingWanted(m);
    }
  }

  lemma SomeMember(s: seq<Sink>)
    requires s != []
    ensures exists r :: r in s
  {
    assert s[0] in s;
  }

  lemma NothingWanted(m: Match)
    ensures Want(m, []) == []
  {
  }

  /** No box of an acyclic graph reads itself. */
  lemma NotItself(w: Wiring, id: NodeId, port: nat)
    requires w.Whole() && w.Live(id) && port < |w.At(id).inputs|
    ensures !(w.At(id).inputs[port].Port? && w.At(id).inputs[port].node == id)
  {
    assert ReadsBelow(RankOf(w), w.At(id).inputs[port], RankOf(w)[id]);
  }

  lemma {:induction false} NoneInside(m: Match, readers: seq<Sink>)
    requires forall r | r in readers :: r.Output?
    ensures WantInside(m, readers) == []
  {
    if readers != [] {
      assert readers[0] in readers;
      NoneInside(m, readers[1..]);
    }
  }

  function BranchNames(kind: Kind): seq<BranchId> {
    match BranchOf(kind) case Some(b) => [b] case None => []
  }

  function OneMatch(w: Wiring, id: NodeId, outputs: seq<Source>): Match
    requires w.Live(id)
  {
    Match([id], w.At(id).inputs,
      seq(|outputs|, (j: nat) requires j < |outputs| => Readers(w, outputs[j])), BranchNames(w.At(id).kind))
  }

  /** A structural box is always one its elimination fires at. */
  lemma StructuralFires(w: Wiring, id: NodeId)
    requires w.Whole() && w.Live(id) && Structural(w.At(id).kind)
    ensures exists law :: law in STRUCTURAL && LawFiresAt(w, law, id)
  {
    hide Readers; hide Embeds; hide Wiring.Acyclic;
    var kind := w.At(id).kind;
    var n := kind.Effect().outputs;
    var m := OneMatch(w, id, Ports(id, n));
    OneBoxFlat(kind);
    assert Laid(w, OneBox(kind), m);
    LaidEmbeds(w, OneBox(kind), m);
    var law := match kind case Id(_) => LawIdElim case Copy(_) => LawCopyElim case _ => LawSwapElim;
    assert EmbedsFrom(w, Sides(RuleFor(law, kind).value).value.0, m, id);
    assert law in STRUCTURAL;
  }

  ghost predicate LawFiresAt(w: Wiring, law: Law, id: NodeId) {
    w.Live(id) && RuleFor(law, w.At(id).kind).Some? && FiresAt(w, RuleFor(law, w.At(id).kind).value, id)
  }

  lemma UnreadFires(w: Wiring, id: NodeId)
    requires w.Whole() && w.Live(id) && Unread(w, id)
    ensures LawFiresAt(w, LawDeadNode, id)
  {
    hide Readers; hide Embeds; hide Wiring.Acyclic;
    var kind := w.At(id).kind;
    var m := OneMatch(w, id, []);
    OneBoxFlat(kind);
    assert Laid(w, DeadBox(kind), m);
    LaidEmbeds(w, DeadBox(kind), m);
    assert EmbedsFrom(w, DeadBox(kind), m, id);
  }

  lemma TwicePinned(kind: Kind)
    ensures Pinned(Twice(kind)) && Distinct(Twice(kind).outputs)
    ensures forall k: NodeId, port: nat | k < 2 && port < kind.Effect().outputs :: Port(k, port) in Twice(kind).outputs
  {
    var n := kind.Effect().outputs;
    forall k: NodeId, port: nat | k < 2 && port < n ensures Port(k, port) in Twice(kind).outputs {
      assert Twice(kind).outputs[if k == 0 then port else n + port] == Port(k, port);
    }
  }

  lemma TwinShapes(w: Wiring, a: NodeId, b: NodeId, m: Match)
    requires w.Sound() && Twins(w, a, b) && m.nodes == [a, b] && m.inputs == w.At(a).inputs && m.branches == []
    requires |m.outputs| == |Twice(w.At(a).kind).outputs|
    ensures Shaped(w, Twice(w.At(a).kind), m)
    ensures var p := Twice(w.At(a).kind); |p.boxes| == 2 && forall k: NodeId | k < 2 ::
      SameKind(p.At(k).kind, w.At(m.nodes[k]).kind, []) && w.At(m.nodes[k]).inputs == m.inputs
    ensures forall j: nat | j < |Twice(w.At(a).kind).outputs| ::
      Image(m, Twice(w.At(a).kind).outputs[j])
        == (Ports(a, w.At(a).kind.Effect().outputs) + Ports(b, w.At(a).kind.Effect().outputs))[j]
  {
  }

  lemma TwinsFire(w: Wiring, a: NodeId, b: NodeId)
    requires w.Whole() && Twins(w, a, b)
    ensures LawFiresAt(w, LawDedup, a)
  {
    hide Readers; hide Embeds; hide Wiring.Acyclic;
    var kind := w.At(a).kind;
    var n := kind.Effect().outputs;
    var ports := Ports(a, n) + Ports(b, n);
    var m := Match([a, b], w.At(a).inputs, seq(|ports|, (j: nat) requires j < |ports| => Readers(w, ports[j])), []);
    TwiceFlat(kind);
    TwicePinned(kind);
    TwinShapes(w, a, b, m);
    hide Twice; hide Flat; hide Pinned; hide Distinct;
    assert Laid(w, Twice(kind), m);
    LaidEmbeds(w, Twice(kind), m);
    assert Sides(Dedup(kind)).value.0 == Twice(kind) && EmbedsFrom(w, Twice(kind), m, a);
    assert FiresAt(w, Dedup(kind), a);
  }

  // ---- proposing ----

  lemma LeftSidesPin(rule: Rule)
    requires rule.Structural() && Sides(rule).Some?
    ensures var p := Sides(rule).value.0;
      && Pins(p) && forall k: NodeId | k < |p.boxes| && BranchOf(p.At(k).kind).Some? ::
        BranchOf(p.At(k).kind).value < p.branches
  {
    hide Flat; hide Pinned;
    var p := Sides(rule).value.0;
    LeftSidesPinned(rule);
    PinnedPorts(p);
    LeftOutputsDistinct(rule);
    LeftSidesShape(rule);
    forall i: nat | i < p.inputs ensures ReadByABox(p, i) {
      assert p.Live(0) && p.At(0).inputs[i] == Input(i);
    }
    forall b: nat | b < p.branches ensures BranchNamed(p, b) {
      assert p.Live(0) && BranchOf(p.At(0).kind) == Some(b);
    }
  }

  lemma LeftSidesShape(rule: Rule)
    requires rule.Structural() && Sides(rule).Some?
    ensures var p := Sides(rule).value.0;
      && |p.boxes| > 0 && p.Live(0) && p.At(0).inputs == Inputs(p.inputs) && p.branches <= 1
      && (p.branches == 1 ==> BranchOf(p.At(0).kind) == Some(0))
      && forall k: NodeId | k < |p.boxes| && p.Live(k) && BranchOf(p.At(k).kind).Some? ::
        BranchOf(p.At(k).kind).value < p.branches
  {
  }

  /** The steps of one law that could fire at one box. */
  method ProposeLaw(graph: Graph, law: Law, id: NodeId) returns (out: seq<Step>)
    requires graph.S().Linked() && graph.W().Whole() && graph.W().Live(id)
    ensures forall k | 0 <= k < |out| :: Proposed(graph.W(), out[k], id)
    ensures LawFiresAt(graph.W(), law, id) ==> out != []
  {
    hide Store.Linked; hide Wiring.Sound; hide Wiring.Acyclic; hide Embeds; hide Pins; hide SameMatch;
    assert graph.W().At(id).kind == graph.nodes[id].value.kind;
    var rule := RuleFor(law, graph.nodes[id].value.kind);
    if rule.None? || Sides(rule.value).None? {
      return [];
    }
    var p := Sides(rule.value).value.0;
    SidesReady(rule.value);
    LeftSidesPin(rule.value);
    ghost var goal := Match([], [], [], []);
    if m: Match :| EmbedsFrom(graph.W(), p, m, id) {
      goal := m;
    }
    var found := FindAt(graph, p, id, goal);
    out := seq(|found|, k requires 0 <= k < |found| => Step(rule.value, Forward, found[k]));
  }

  /** A step that lands here, anchored at this box. */
  ghost predicate Proposed(w: Wiring, step: Step, id: NodeId) {
    GoesForward(w, step) && Lands(w, step) && |step.at.nodes| > 0 && step.at.nodes[0] == id
  }

  /** No law of the wiring has anything to do at this box. */
  ghost predicate Quiet(w: Wiring, id: NodeId)
    requires w.Live(id)
  {
    !Structural(w.At(id).kind) && !Unread(w, id) && forall b :: !Twins(w, id, b)
  }

  /** Forward steps whose match starts at `id`; an empty list means no law fires there. */
  method Propose(graph: Graph, id: NodeId) returns (out: seq<Step>)
    requires graph.S().Linked() && graph.W().Whole() && graph.W().Live(id)
    ensures forall k | 0 <= k < |out| :: Proposed(graph.W(), out[k], id)
    ensures out == [] ==> Quiet(graph.W(), id)
  {
    hide Store.Linked; hide Wiring.Sound; hide Wiring.Acyclic; hide LawFiresAt; hide Proposed;
    out := [];
    for k := 0 to |STRUCTURAL|
      invariant forall j | 0 <= j < |out| :: Proposed(graph.W(), out[j], id)
      invariant out == [] ==> forall j | 0 <= j < k :: !LawFiresAt(graph.W(), STRUCTURAL[j], id)
    {
      var more := ProposeLaw(graph, STRUCTURAL[k], id);
      out := out + more;
    }
    if out == [] {
      QuietIfNoneFire(graph.W(), id);
    }
  }

  lemma QuietIfNoneFire(w: Wiring, id: NodeId)
    requires w.Whole() && w.Live(id) && forall j | 0 <= j < |STRUCTURAL| :: !LawFiresAt(w, STRUCTURAL[j], id)
    ensures Quiet(w, id)
  {
    hide LawFiresAt; hide Wiring.Sound; hide Wiring.Acyclic; hide Unread;
    assert forall law | law in STRUCTURAL :: !LawFiresAt(w, law, id);
    assert LawDeadNode in STRUCTURAL && LawDedup in STRUCTURAL;
    if Structural(w.At(id).kind) {
      StructuralFires(w, id);
    }
    if Unread(w, id) {
      UnreadFires(w, id);
    }
    if b :| Twins(w, id, b) {
      TwinsFire(w, id, b);
    }
  }

  // ---- the worklist ----

  /** Wherever a law could fire, a box it would fire at is still to be looked at. */
  ghost predicate Pending(w: Wiring, work: seq<NodeId>) {
    && (forall id | w.Live(id) && Structural(w.At(id).kind) :: id in work)
    && (forall id | w.Live(id) && Unread(w, id) :: id in work)
    && (forall a, b | Twins(w, a, b) :: a in work || b in work)
  }

  /** No `id`, `copy` or `swap`, no box nothing reads, and no computation done twice. */
  ghost predicate Saturated(w: Wiring) {
    forall id | w.Live(id) :: Quiet(w, id)
  }

  lemma NothingPending(w: Wiring)
    requires Pending(w, [])
    ensures Saturated(w)
  {
  }

  lemma QuietLeaves(w: Wiring, work: seq<NodeId>, id: NodeId)
    requires Pending(w, work + [id]) && (w.Live(id) ==> Quiet(w, id))
    ensures Pending(w, work)
  {
    forall a, b | Twins(w, a, b) ensures a in work || b in work {
      assert Twins(w, b, a);
    }
  }

  /** What a step could unsettle: producers of what went, readers of what it leaves, and what went in. */
  ghost predicate Reached(w: Wiring, step: Step, again: seq<NodeId>)
    requires Sides(step.rule).Some?
  {
    && (forall sink | Inside(step.at, sink) && w.Reads(sink).Some? && w.Reads(sink).value.Port? ::
      w.Reads(sink).value.node in again)
    && (forall j, sink | 0 <= j < |step.at.outputs| && sink in step.at.outputs[j] && sink.Slot? :: sink.node in again)
    && (forall x | x in Back(w, Replacement(step), step.at).nodes :: x in again)
  }

  lemma StepKeepsPending(w: Wiring, step: Step, id: NodeId, work: seq<NodeId>, again: seq<NodeId>)
    requires w.Whole() && Proposed(w, step, id) && Pending(w, work + [id]) && Reached(w, step, again)
    ensures Pending(Rewritten(w, step), work + again)
  {
    hide Wiring.Acyclic; hide Wiring.Sound; hide Spliced; hide Embeds; hide Fired; hide Reached; hide Pinned;
    hide Unread;
    ForwardFires(w, step);
    LeftSidesPinned(step.rule);
    var p, s := Pattern(step), Rewritten(w, step);
    forall x: NodeId | s.Live(x) && (Structural(s.At(x).kind) || Unread(s, x)) ensures x in work + again {
      TwinsSince(w, p, step, again, x);
      if x !in again && Unread(s, x) {
        UnreadSince(w, p, step, again, x);
      }
    }
    forall a: NodeId, b: NodeId | Twins(s, a, b) ensures a in work + again || b in work + again {
      TwinsSince(w, p, step, again, a);
      TwinsSince(w, p, step, again, b);
      if a !in again && b !in again {
        assert Twins(w, a, b);
      }
    }
  }

  /** A box that kept its place either reads what it read, or is looked at again. */
  lemma TwinsSince(w: Wiring, p: Wiring, step: Step, again: seq<NodeId>, x: NodeId)
    requires Sides(step.rule).Some? && Fired(w, p, Replacement(step), step.at) && Reached(w, step, again)
    requires Rewritten(w, step).Live(x)
    ensures x in again || (w.Live(x) && x !in step.at.nodes && Rewritten(w, step).At(x) == w.At(x))
  {
    hide Embeds; hide Spliced; hide Wiring.Sound;
    var (r, m) := (Replacement(step), step.at);
    SplicedAt(w, r, m, x);
    if x >= |w.boxes| {
      assert Back(w, r, m).nodes[x - |w.boxes|] == x;
    } else if x !in again {
      var mine := Survivor(r, Back(w, r, m), x, w.At(x));
      forall port: nat | port < |w.At(x).inputs| ensures mine.inputs[port] == w.At(x).inputs[port] {
        assert ServedBy(m.outputs, Slot(x, port)).None?;
      }
      assert mine.inputs == w.At(x).inputs;
    }
  }

  /** A box nothing reads any more was unread before, or fed a box that went. */
  lemma UnreadSince(w: Wiring, p: Wiring, step: Step, again: seq<NodeId>, x: NodeId)
    requires Sides(step.rule).Some? && Fired(w, p, Replacement(step), step.at) && Reached(w, step, again)
    requires w.Live(x) && x !in step.at.nodes && Unread(Rewritten(w, step), x) && Pinned(p)
    ensures x in again || Unread(w, x)
  {
    hide Spliced; hide Full; hide BoxFits; hide Wiring.Sound;
    var (r, m) := (Replacement(step), step.at);
    forall sink | x !in again && w.Reads(sink).Some? && w.Reads(sink).value.Port?
      ensures w.Reads(sink).value.node != x
    {
      SplicedReads(w, r, m, sink);
      if !Inside(m, sink) {
        var j := ServedBy(m.outputs, sink);
        if j.Some? {
          ServedIsOutside(w, p, m, sink);
          OutputsHeld(p, j.value);
        }
      }
    }
  }

  // ---- the measure ----

  ghost function LiveBoxes(w: Wiring): set<NodeId> {
    set id: NodeId | id < |w.boxes| && w.Live(id)
  }

  ghost function Members(s: seq<NodeId>): set<NodeId> {
    set x | x in s
  }

  lemma {:induction false} DistinctSize(s: seq<NodeId>)
    requires Distinct(s)
    ensures |Members(s)| == |s|
  {
    if s != [] {
      var last := s[|s| - 1];
      var rest := s[..|s| - 1];
      DistinctSize(rest);
      assert s == rest + [last];
      assert last !in Members(rest);
      assert Members(s) == Members(rest) + {last};
    }
  }

  /** A splice takes out the boxes it matched and puts in the replacement's. */
  lemma SpliceSize(w: Wiring, p: Wiring, r: Wiring, m: Match)
    requires Fired(w, p, r, m)
    ensures |LiveBoxes(Spliced(w, r, m))| == |LiveBoxes(w)| - |m.nodes| + |r.boxes|
  {
    hide Full; hide BoxFits; hide Serves; hide Spliced; hide Wiring.Sound;
    var s, back := Spliced(w, r, m), Back(w, r, m).nodes;
    var gone, came := Members(m.nodes), Members(back);
    DistinctSize(m.nodes);
    DistinctSize(back);
    forall id: NodeId ensures id in LiveBoxes(s) <==> id in LiveBoxes(w) - gone + came {
      SpliceMembers(w, p, r, m, id);
    }
    assert LiveBoxes(s) == LiveBoxes(w) - gone + came;
    SizeAfter(LiveBoxes(w), gone, came);
  }

  lemma SpliceMembers(w: Wiring, p: Wiring, r: Wiring, m: Match, id: NodeId)
    requires Fired(w, p, r, m)
    ensures id in LiveBoxes(Spliced(w, r, m)) <==> id in LiveBoxes(w) - Members(m.nodes) + Members(Back(w, r, m).nodes)
    ensures id in Members(m.nodes) ==> id in LiveBoxes(w)
    ensures id in Members(Back(w, r, m).nodes) ==> id !in LiveBoxes(w)
  {
    hide Full; hide BoxFits; hide Serves; hide Spliced; hide Wiring.Sound;
    SplicedAt(w, r, m, id);
    if id >= |w.boxes| && id - |w.boxes| < |r.boxes| {
      assert Back(w, r, m).nodes[id - |w.boxes|] == id;
    }
  }

  lemma SizeAfter(all: set<NodeId>, gone: set<NodeId>, came: set<NodeId>)
    requires gone <= all && came !! all
    ensures |all - gone + came| == |all| - |gone| + |came|
  {
    assert |all - gone| == |all| - |gone|;
    assert (all - gone) !! came;
  }

  lemma SidesShrink(rule: Rule)
    requires rule.Structural() && Sides(rule).Some?
    ensures |Sides(rule).value.0.boxes| > |Sides(rule).value.1.boxes|
  {
  }

  /** Every structural law, taken forward, leaves fewer boxes than it found. */
  lemma StepShrinks(w: Wiring, step: Step)
    requires w.Whole() && GoesForward(w, step)
    ensures |LiveBoxes(Rewritten(w, step))| < |LiveBoxes(w)|
  {
    hide Wiring.Acyclic; hide Wiring.Sound; hide Spliced; hide BoxFits; hide Serves;
    ForwardFires(w, step);
    SidesShrink(step.rule);
    SpliceSize(w, Pattern(step), Replacement(step), step.at);
  }

  // ---- to fixpoint ----

  /** Whom to look at again after a rewrite: producers of what the match read, and readers of what it left. */
  method Neighbours(graph: Graph, at: Match) returns (out: seq<NodeId>)
    requires forall k | 0 <= k < |at.nodes| :: graph.W().Live(at.nodes[k])
    ensures forall sink | Inside(at, sink) && graph.W().Reads(sink).Some? && graph.W().Reads(sink).value.Port? ::
      graph.W().Reads(sink).value.node in out
    ensures forall j, sink | 0 <= j < |at.outputs| && sink in at.outputs[j] && sink.Slot? :: sink.node in out
  {
    out := [];
    for k := 0 to |at.nodes|
      invariant forall j, port | 0 <= j < k && 0 <= port < |graph.nodes[at.nodes[j]].value.inputs|
        && graph.nodes[at.nodes[j]].value.inputs[port].Port? :: graph.nodes[at.nodes[j]].value.inputs[port].node in out
    {
      out := out + PortNodes(graph.nodes[at.nodes[k]].value.inputs);
    }
    for j := 0 to |at.outputs|
      invariant forall k, port | 0 <= k < |at.nodes| && 0 <= port < |graph.nodes[at.nodes[k]].value.inputs|
        && graph.nodes[at.nodes[k]].value.inputs[port].Port? :: graph.nodes[at.nodes[k]].value.inputs[port].node in out
      invariant forall k, sink | 0 <= k < j && sink in at.outputs[k] && sink.Slot? :: sink.node in out
    {
      out := out + SlotNodes(at.outputs[j]);
    }
  }

  function PortNodes(s: seq<Source>): (r: seq<NodeId>)
    ensures forall k | 0 <= k < |s| && s[k].Port? :: s[k].node in r
  {
    if s == [] then [] else PortNodes(s[..|s| - 1]) + if s[|s| - 1].Port? then [s[|s| - 1].node] else []
  }

  function SlotNodes(s: seq<Sink>): (r: seq<NodeId>)
    ensures forall sink | sink in s && sink.Slot? :: sink.node in r
  {
    if s == [] then [] else SlotNodes(s[..|s| - 1]) + if s[|s| - 1].Slot? then [s[|s| - 1].node] else []
  }

  /** Those that read what the step's boundary stood for, read after it. */
  function BoundaryReaders(graph: Graph, srcs: seq<Source>): seq<NodeId>
    reads graph
  {
    if srcs == [] then [] else SlotNodes(graph.S().Sinks(srcs[0])) + BoundaryReaders(graph, srcs[1..])
  }

  method AllBoxes(graph: Graph) returns (ids: seq<NodeId>)
    ensures forall id: NodeId | graph.W().Live(id) :: id in ids
  {
    ids := [];
    for k: nat := 0 to |graph.nodes|
      invariant forall id: NodeId | id < k && graph.W().Live(id) :: id in ids
    {
      if graph.nodes[k].Some? {
        ids := ids + [k];
      }
    }
  }

  /**
   * Rewrites until `Saturated`. The loop ends because each step leaves fewer boxes or a shorter worklist; the
   * meaning and the pairing of branch ends are kept, and the run is returned with all it did.
   */
  method Saturate(graph: Graph) returns (run: Derivation)
    requires graph.S().Linked() && graph.W().Whole()
    modifies graph
    ensures fresh(run) && run.Valid() && run.Reversible()
    ensures run.Start() == old(graph.W()) && run.End() == graph.W()
    ensures graph.S().Linked() && Alike(old(graph.W()), graph.W())
    ensures Saturated(graph.W()) && (old(Ended(graph.W())) ==> Ended(graph.W()))
  {
    hide Store.Linked; hide Wiring.Sound; hide Wiring.Acyclic; hide Pending; hide Alike; hide Saturated;
    hide Proposed; hide Ended;
    run := new Derivation(graph.W());
    AlikeItself(graph.W());
    var work := AllBoxes(graph);
    EverythingPending(graph.W(), work);
    while work != []
      invariant fresh(run) && run.Valid() && run.Reversible()
      invariant run.Start() == old(graph.W()) && run.End() == graph.W()
      invariant graph.S().Linked() && graph.W().Whole() && Alike(old(graph.W()), graph.W())
      invariant Pending(graph.W(), work)
      decreases |LiveBoxes(graph.W())|, |work|
    {
      var id := work[|work| - 1];
      assert work == work[..|work| - 1] + [id];
      work := work[..|work| - 1];
      if !graph.W().Live(id) {
        QuietLeaves(graph.W(), work, id);
        continue;
      }
      var steps := Propose(graph, id);
      if steps == [] {
        QuietLeaves(graph.W(), work, id);
        continue;
      }
      ghost var before := graph.W();
      var again := Spend(graph, run, steps[0], id, work);
      AlikeJoins(old(graph.W()), before, graph.W());
      work := work + again;
    }
    NothingPending(graph.W());
    if Ended(run.Start()) {
      RunKeepsEnds(run.history, run.steps, |run.steps|);
    }
  }

  lemma EverythingPending(w: Wiring, work: seq<NodeId>)
    requires forall id: NodeId | w.Live(id) :: id in work
    ensures Pending(w, work)
  {
  }

  lemma AlikeItself(w: Wiring)
    requires w.Whole()
    ensures Alike(w, w)
  {
  }

  lemma AlikeJoins(a: Wiring, b: Wiring, c: Wiring)
    requires Alike(a, b) && Alike(b, c)
    ensures Alike(a, c)
  {
    hide Meaning; hide Wiring.Whole;
  }

  /** One step spent, and the boxes it could have unsettled. */
  method Spend(graph: Graph, run: Derivation, step: Step, id: NodeId, ghost work: seq<NodeId>)
    returns (again: seq<NodeId>)
    requires run.Valid() && run.Reversible() && run.End() == graph.W() && graph.S().Linked() && graph.W().Whole()
    requires Proposed(graph.W(), step, id) && Pending(graph.W(), work + [id])
    modifies run, graph
    ensures run.Valid() && run.Reversible() && run.Start() == old(run.Start()) && run.End() == graph.W()
    ensures graph.S().Linked() && graph.W().Whole() && Alike(old(graph.W()), graph.W())
    ensures Pending(graph.W(), work + again) && |LiveBoxes(graph.W())| < |old(LiveBoxes(graph.W()))|
  {
    hide Store.Linked; hide Wiring.Sound; hide Wiring.Acyclic; hide Pending; hide Alike; hide Spliced; hide BoxFits;
    hide Serves;
    ghost var w := graph.W();
    ForwardKeeps(w, step);
    ForwardFires(w, step);
    StepShrinks(w, step);
    again := Neighbours(graph, step.at);
    var pushed := run.Push(graph, step);
    var back := run.steps[|run.steps| - 1].1;
    again := again + back.at.nodes;
    StepKeepsPending(w, step, id, work, again);
    MorePending(graph.W(), work, again, BoundaryReaders(graph, step.at.inputs));
    again := again + BoundaryReaders(graph, step.at.inputs);
  }

  lemma MorePending(w: Wiring, work: seq<NodeId>, again: seq<NodeId>, more: seq<NodeId>)
    requires Pending(w, work + again)
    ensures Pending(w, work + (again + more))
  {
  }

  // ---- what is left ----

  /** On a saturated graph no structural law has a match anywhere. */
  lemma NothingFires(w: Wiring, rule: Rule, m: Match)
    requires w.Whole() && Saturated(w) && rule.Structural() && Sides(rule).Some?
    ensures !Embeds(w, Sides(rule).value.0, m)
  {
    hide Full; hide Serves; hide Wiring.Acyclic; hide Twins; hide Unread; hide Wiring.Sound; hide Twice;
    if Embeds(w, Sides(rule).value.0, m) {
      MatchDisturbs(w, rule, m);
    }
  }

  /** Where a law has a match, its first box is not quiet. */
  lemma MatchDisturbs(w: Wiring, rule: Rule, m: Match)
    requires w.Whole() && rule.Structural() && Sides(rule).Some? && Embeds(w, Sides(rule).value.0, m)
    ensures |m.nodes| > 0 && w.Live(m.nodes[0]) && !Quiet(w, m.nodes[0])
  {
    hide Full; hide Serves; hide Wiring.Acyclic; hide Unread; hide Wiring.Sound;
    LeftSidesShape(rule);
    assert BoxFits(w, Sides(rule).value.0, m, 0);
    match rule {
      case DeadNode(kind) => DeadIsUnread(w, kind, m);
      case Dedup(kind) => DedupsAreTwins(w, kind, m);
      case _ =>
    }
  }

  lemma DedupsAreTwins(w: Wiring, kind: Kind, m: Match)
    requires w.Whole() && EndOf(kind).None? && Embeds(w, Twice(kind), m)
    ensures Twins(w, m.nodes[0], m.nodes[1])
  {
    hide Full; hide Serves; hide Wiring.Acyclic; hide Wiring.Sound;
    assert BoxFits(w, Twice(kind), m, 0) && BoxFits(w, Twice(kind), m, 1);
  }

  lemma DeadIsUnread(w: Wiring, kind: Kind, m: Match)
    requires w.Whole() && Embeds(w, DeadBox(kind), m)
    ensures Unread(w, m.nodes[0])
  {
    hide Wiring.Acyclic; hide Full; hide Serves; hide Readers;
    var p := DeadBox(kind);
    assert BoxFits(w, p, m, 0);
    SameKindShapes(p.At(0).kind, w.At(m.nodes[0]).kind, m.branches);
    forall sink | w.Reads(sink).Some? && w.Reads(sink).value.Port? ensures w.Reads(sink).value.node != m.nodes[0] {
      SoundReads(w, sink);
      DeadPortUnread(w, kind, m, w.Reads(sink).value.port, sink);
    }
  }

  lemma DeadPortUnread(w: Wiring, kind: Kind, m: Match, port: nat, sink: Sink)
    requires Embeds(w, DeadBox(kind), m)
    ensures port < kind.Effect().outputs ==> w.Reads(sink) != Some(Port(m.nodes[0], port))
  {
    hide Full; hide Readers; hide Serves;
    var p := DeadBox(kind);
    assert BoxFits(w, p, m, 0);
    if port < kind.Effect().outputs {
      var readers := Readers(p, Port(0, port));
      FullMeans(w, m, readers, Port(m.nodes[0], port));
      forall r ensures r !in readers {
        ReadersHas(p, Port(0, port), r);
      }
      WantHas(m, readers, sink);
    }
  }
}
