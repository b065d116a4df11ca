/** The check a graph answers to: ports, pairing, links at both ends, and nothing that feeds itself. */
module Checking {
  import opened Wrappers
  import opened Wirings
  import opened Splices
  import opened Laws
  import opened Graphs
  import opened Steps

  datatype CheckError =
    | Width(node: NodeId)
    | BranchTwice(end: (BranchId, bool), first: NodeId, second: NodeId)
    | Dangling(source: Source, sink: Sink)
    | Torn(source: Source, sink: Sink)
    | Cyclic(node: NodeId)

  // ---- nothing feeds itself ----

  datatype Colour = White | Grey | Black

  /** A depth-first walk against the links. */
  class Walk {
    const w: Wiring
    var colour: seq<Colour>
    /** A finished box's place in the order the boxes were finished. */
    ghost var rank: seq<nat>
    ghost var finished: nat
    /** An order the wiring may be held to. */
    ghost const claim: seq<nat>

    ghost predicate Valid()
      reads this
    {
      && w.Sound() && |colour| == |rank| == |w.boxes|
      && (forall id | 0 <= id < |colour| && colour[id] != White :: w.Live(id))
      && (forall id | 0 <= id < |colour| && colour[id] == Black :: rank[id] < finished && Grounded(id))
    }

    /** Everything a finished box reads was finished before it. */
    ghost predicate Grounded(id: NodeId)
      reads this
      requires w.Live(id) && |colour| == |rank| == |w.boxes|
    {
      forall port | 0 <= port < |w.At(id).inputs| && w.At(id).inputs[port].Port? ::
        var node := w.At(id).inputs[port].node;
        node < |colour| && colour[node] == Black && rank[node] < rank[id]
    }

    /** Boxes being walked stay so, and finished ones stay finished. */
    twostate predicate Walked()
      reads this
    {
      && old(Valid()) && Valid()
      && (forall id | 0 <= id < |colour| :: (colour[id] == Grey <==> old(colour)[id] == Grey))
      && (forall id | 0 <= id < |colour| && old(colour)[id] == Black ::
        colour[id] == Black && rank[id] == old(rank)[id])
    }

    constructor (w: Wiring, ghost claim: seq<nat>)
      requires w.Sound()
      ensures Valid() && this.w == w && this.claim == claim && forall id | 0 <= id < |colour| :: colour[id] == White
    {
      this.w, this.claim := w, claim;
      colour, rank, finished := seq(|w.boxes|, _ => White), seq(|w.boxes|, _ => 0), 0;
    }

    function Whites(): set<NodeId>
      reads this
    {
      set id | 0 <= id < |colour| && colour[id] == White
    }

    /** Every box being walked is above this one, if the claimed order is one. */
    ghost predicate Beneath(id: NodeId)
      reads this
      requires w.Live(id) && |colour| == |w.boxes|
    {
      && w.Ranked(claim) && forall g | 0 <= g < |colour| && colour[g] == Grey :: claim[g] > claim[id]
    }

    /** One box and everything it reads; a box met while it is being walked feeds itself. */
    method Descend(id: NodeId) returns (r: Result<(), CheckError>)
      requires Valid() && w.Live(id)
      modifies `colour, `rank, `finished
      ensures r.Ok? ==> Walked() && colour[id] == Black && Whites() <= old(Whites())
      ensures old(Beneath(id)) ==> r.Ok?
      decreases |Whites()|, 0
    {
      match colour[id] {
        case Black => return Ok(());
        case Grey => return Err(Cyclic(id));
        case White =>
      }
      ghost var whites := Whites();
      ghost var beneath := Beneath(id);
      colour := colour[id := Grey];
      assert Whites() == whites - {id} && id in whites;
      NoLarger(Whites(), whites - {id});
      r := DescendInputs(id, beneath);
      if r.Err? {
        return;
      }
      Finish(id);
    }

    method DescendInputs(id: NodeId, ghost beneath: bool) returns (r: Result<(), CheckError>)
      requires Valid() && w.Live(id) && colour[id] == Grey
      requires beneath ==> w.Ranked(claim) && forall g | 0 <= g < |colour| && colour[g] == Grey :: claim[g] >= claim[id]
      modifies `colour, `rank, `finished
      ensures r.Ok? ==> Walked() && Whites() <= old(Whites())
      ensures r.Ok? ==> forall k | 0 <= k < |w.At(id).inputs| && w.At(id).inputs[k].Port? ::
        w.At(id).inputs[k].node < |colour| && colour[w.At(id).inputs[k].node] == Black
      ensures beneath ==> r.Ok?
      decreases |Whites()|, 1
    {
      r := Ok(());
      for port := 0 to |w.At(id).inputs|
        invariant Walked() && Whites() <= old(Whites()) && r.Ok?
        invariant forall k | 0 <= k < port && w.At(id).inputs[k].Port? ::
          w.At(id).inputs[k].node < |colour| && colour[w.At(id).inputs[k].node] == Black
      {
        var src := w.At(id).inputs[port];
        if src.Port? {
          SlotReads(id, port);
          assert beneath ==> ReadsBelow(claim, src, claim[id]);
          NoLarger(Whites(), old(Whites()));
          r := Descend(src.node);
          if r.Err? {
            return;
          }
        }
      }
    }

    lemma SlotReads(id: NodeId, port: nat)
      requires w.Sound() && w.Live(id) && port < |w.At(id).inputs|
      ensures w.Has(w.At(id).inputs[port])
    {
      assert w.Reads(Slot(id, port)) == Some(w.At(id).inputs[port]);
    }

    /** A box whose reads are all finished is finished next. */
    method Finish(id: NodeId)
      requires Valid() && w.Live(id) && colour[id] == Grey
      requires forall k | 0 <= k < |w.At(id).inputs| && w.At(id).inputs[k].Port? ::
        w.At(id).inputs[k].node < |colour| && colour[w.At(id).inputs[k].node] == Black
      modifies `colour, `rank, `finished
      ensures Valid() && colour == old(colour)[id := Black] && rank == old(rank)[id := old(finished)]
    {
      colour := colour[id := Black];
      rank := rank[id := finished];
      finished := finished + 1;
    }

    /** Once every box is finished, the order they were finished in ranks them. */
    lemma AllFinished()
      requires Valid() && forall id: NodeId | w.Live(id) :: colour[id] == Black
      ensures w.Acyclic()
    {
      forall id: NodeId, port | w.Live(id) && 0 <= port < |w.At(id).inputs|
        ensures ReadsBelow(rank, w.At(id).inputs[port], rank[id])
      {
        assert Grounded(id);
      }
      assert w.Ranked(rank);
    }
  }

  lemma {:induction false} NoLarger(a: set<NodeId>, b: set<NodeId>)
    requires a <= b
    ensures |a| <= |b|
  {
    assert b == a + (b - a);
  }

  /** The walk finishes every box exactly when some order has producers before what reads them. */
  method CheckAcyclic(w: Wiring) returns (r: Result<(), CheckError>)
    requires w.Sound()
    ensures r.Ok? <==> w.Acyclic()
  {
    ghost var claim: seq<nat> := [];
    if order: seq<nat> :| w.Ranked(order) {
      claim := order;
    }
    var walk := new Walk(w, claim);
    for id := 0 to |w.boxes|
      invariant walk.Valid() && walk.w == w && walk.claim == claim
      invariant forall k | 0 <= k < |walk.colour| :: walk.colour[k] != Grey
      invariant forall k | 0 <= k < id && w.Live(k) :: walk.colour[k] == Black
    {
      if w.Live(id) {
        var walked := walk.Descend(id);
        if walked.Err? {
          assert !w.Ranked(claim);
          return walked;
        }
      }
    }
    walk.AllFinished();
    r := Ok(());
  }

  // ---- the rest of the check ----

  predicate Fits(s: Store, id: NodeId)
    requires id < |s.nodes|
  {
    s.nodes[id].Some? ==>
      var node := s.nodes[id].value;
      |node.inputs| == node.kind.Effect().inputs && |node.outputs| == node.kind.Effect().outputs
  }

  /** Every box has its kind's ports. */
  method CheckWidths(s: Store) returns (r: Result<(), CheckError>)
    ensures r.Ok? <==> forall id | 0 <= id < |s.nodes| :: Fits(s, id)
  {
    for id := 0 to |s.nodes|
      invariant forall k | 0 <= k < id :: Fits(s, k)
    {
      if !Fits(s, id) {
        return Err(Width(id));
      }
    }
    r := Ok(());
  }

  /** No branch has two forks, or two selects. */
  method CheckPairing(s: Store) returns (r: Result<(), CheckError>)
    ensures r.Ok? <==> s.Wiring().Paired()
  {
    var w := s.Wiring();
    var ends: map<(BranchId, bool), NodeId> := map[];
    for id := 0 to |w.boxes|
      invariant forall e | e in ends :: w.Live(ends[e]) && ends[e] < id && EndOf(w.At(ends[e]).kind) == Some(e)
      invariant forall k | 0 <= k < id && w.Live(k) && EndOf(w.At(k).kind).Some? ::
        EndOf(w.At(k).kind).value in ends && ends[EndOf(w.At(k).kind).value] == k
    {
      if w.Live(id) && EndOf(w.At(id).kind).Some? {
        var end := EndOf(w.At(id).kind).value;
        if end in ends {
          return Err(BranchTwice(end, ends[end], id));
        }
        ends := ends[end := id];
      }
    }
    r := Ok(());
  }

  function Count(sinks: seq<Sink>, sink: Sink): (n: nat)
    ensures n == multiset(sinks)[sink]
  {
    if sinks == [] then 0
    else
      assert sinks == sinks[..|sinks| - 1] + [sinks[|sinks| - 1]];
      Count(sinks[..|sinks| - 1], sink) + if sinks[|sinks| - 1] == sink then 1 else 0
  }

  /** What a sink reads is there, and lists it exactly once. */
  predicate ListedBack(s: Store, src: Source, sink: Sink) {
    s.Wiring().Has(src) && Count(s.Sinks(src), sink) == 1
  }

  function ListedError(s: Store, src: Source, sink: Sink): CheckError {
    if s.Wiring().Has(src) then Torn(src, sink) else Dangling(src, sink)
  }

  /** Accepts exactly when whatever is read lists its reader once. */
  method CheckReaders(s: Store) returns (r: Result<(), CheckError>)
    ensures r.Ok? <==> forall sink | s.Wiring().Reads(sink).Some? :: ListedBack(s, s.Wiring().Reads(sink).value, sink)
  {
    var w := s.Wiring();
    for id := 0 to |w.boxes|
      invariant forall k, port | 0 <= k < id && w.Reads(Slot(k, port)).Some? ::
        ListedBack(s, w.Reads(Slot(k, port)).value, Slot(k, port))
    {
      if w.Live(id) {
        for port := 0 to |w.At(id).inputs|
          invariant forall q: nat | q < port :: ListedBack(s, w.At(id).inputs[q], Slot(id, q))
        {
          if !ListedBack(s, w.At(id).inputs[port], Slot(id, port)) {
            assert w.Reads(Slot(id, port)) == Some(w.At(id).inputs[port]);
            return Err(ListedError(s, w.At(id).inputs[port], Slot(id, port)));
          }
        }
      }
    }
    for i := 0 to |w.outputs|
      invariant forall j: nat | j < i :: ListedBack(s, w.outputs[j], Output(j))
    {
      if !ListedBack(s, w.outputs[i], Output(i)) {
        assert w.Reads(Output(i)) == Some(w.outputs[i]);
        return Err(ListedError(s, w.outputs[i], Output(i)));
      }
    }
    r := Ok(());
  }

  /** Every sink a source lists reads it. */
  predicate ReadsBack(s: Store, src: Source) {
    forall k | 0 <= k < |s.Sinks(src)| :: s.Wiring().Reads(s.Sinks(src)[k]) == Some(src)
  }

  method CheckSource(s: Store, src: Source) returns (r: Result<(), CheckError>)
    ensures r.Ok? <==> ReadsBack(s, src)
  {
    var sinks := s.Sinks(src);
    for k := 0 to |sinks|
      invariant forall j | 0 <= j < k :: s.Wiring().Reads(sinks[j]) == Some(src)
    {
      if s.Wiring().Reads(sinks[k]) != Some(src) {
        return Err(Torn(src, sinks[k]));
      }
    }
    r := Ok(());
  }

  /** Accepts exactly when every entry of every reader list is a reader of that source. */
  method CheckSources(s: Store) returns (r: Result<(), CheckError>)
    ensures r.Ok? <==> forall src | s.Wiring().Has(src) :: ReadsBack(s, src)
  {
    var w := s.Wiring();
    for i := 0 to w.inputs
      invariant forall j: nat | j < i :: ReadsBack(s, Input(j))
    {
      r := CheckSource(s, Input(i));
      if r.Err? {
        assert w.Has(Input(i));
        return;
      }
    }
    for id := 0 to |w.boxes|
      invariant forall k, port | 0 <= k < id && w.Has(Port(k, port)) :: ReadsBack(s, Port(k, port))
    {
      if w.Live(id) {
        for port := 0 to w.At(id).kind.Effect().outputs
          invariant forall q: nat | q < port :: ReadsBack(s, Port(id, q))
        {
          r := CheckSource(s, Port(id, port));
          if r.Err? {
            assert w.Has(Port(id, port));
            return;
          }
        }
      }
    }
    r := Ok(());
  }

  /** Links that agree at both ends are links every reader and every source vouches for. */
  lemma LinksAgree(s: Store)
    requires s.Ported() && s.Wiring().Sound()
    ensures s.Linked() <==>
      && (forall sink | s.Wiring().Reads(sink).Some? :: ListedBack(s, s.Wiring().Reads(sink).value, sink))
      && (forall src | s.Wiring().Has(src) :: ReadsBack(s, src))
  {
    var w := s.Wiring();
    if s.Linked() {
      forall sink | w.Reads(sink).Some? ensures ListedBack(s, w.Reads(sink).value, sink) {
        assert s.Listed(w.Reads(sink).value, sink, iset{});
      }
      forall src | w.Has(src) ensures ReadsBack(s, src) {
        forall k | 0 <= k < |s.Sinks(src)| ensures w.Reads(s.Sinks(src)[k]) == Some(src) {
          assert s.Listed(src, s.Sinks(src)[k], iset{});
          assert s.Sinks(src)[k] in multiset(s.Sinks(src));
        }
      }
    }
    if (forall sink | w.Reads(sink).Some? :: ListedBack(s, w.Reads(sink).value, sink))
      && (forall src | w.Has(src) :: ReadsBack(s, src)) {
      forall src, sink | w.Has(src) ensures s.Listed(src, sink, iset{}) {
        if w.Reads(sink) != Some(src) {
          assert ReadsBack(s, src);
          forall k | 0 <= k < |s.Sinks(src)| ensures s.Sinks(src)[k] != sink {
          }
          assert sink !in multiset(s.Sinks(src));
        }
      }
    }
  }

  /** A graph that holds together: its ports, its pairing, both ends of its links, and no feedback. */
  ghost predicate HoldsTogether(s: Store) {
    s.Wiring().Whole() && s.Linked() && s.Wiring().Paired()
  }

  /** The check accepts exactly the graphs that hold together. */
  method Check(s: Store) returns (r: Result<(), CheckError>)
    ensures r.Ok? <==> HoldsTogether(s)
  {
    r := CheckWidths(s);
    WidthsFit(s);
    if r.Err? { return; }
    r := CheckPairing(s);
    if r.Err? { return; }
    r := CheckReaders(s);
    if r.Err? {
      ReadersNeeded(s);
      return;
    }
    ReadersSound(s);
    LinksAgree(s);
    r := CheckSources(s);
    if r.Err? { return; }
    r := CheckAcyclic(s.Wiring());
  }

  lemma WidthsFit(s: Store)
    ensures (forall id | 0 <= id < |s.nodes| :: Fits(s, id)) <==>
      s.Ported() && forall id | s.Wiring().Live(id) ::
        |s.Wiring().At(id).inputs| == s.Wiring().At(id).kind.Effect().inputs
  {
    var w := s.Wiring();
    forall id | 0 <= id < |s.nodes| ensures w.Live(id) == s.nodes[id].Some? {
    }
    if forall id | 0 <= id < |s.nodes| :: Fits(s, id) {
      forall id | w.Live(id) ensures |w.At(id).inputs| == w.At(id).kind.Effect().inputs {
        assert Fits(s, id);
      }
      forall id | 0 <= id < |s.nodes| && s.nodes[id].Some?
        ensures |s.nodes[id].value.outputs| == s.nodes[id].value.kind.Effect().outputs
      {
        assert Fits(s, id);
      }
    }
  }

  lemma ReadersSound(s: Store)
    requires forall id | s.Wiring().Live(id) :: |s.Wiring().At(id).inputs| == s.Wiring().At(id).kind.Effect().inputs
    requires forall sink | s.Wiring().Reads(sink).Some? :: ListedBack(s, s.Wiring().Reads(sink).value, sink)
    ensures s.Wiring().Sound()
  {
  }

  lemma ReadersNeeded(s: Store)
    requires s.Ported()
    requires !forall sink | s.Wiring().Reads(sink).Some? :: ListedBack(s, s.Wiring().Reads(sink).value, sink)
    ensures !HoldsTogether(s)
  {
    if s.Wiring().Sound() {
      LinksAgree(s);
    }
  }

  // ---- steps against the check ----

  /** No replacement a structural law puts in is an end of a branch, so the ends there are stay paired. */
  lemma ForwardKeepsPaired(w: Wiring, step: Step)
    requires w.Paired() && step.dir.Forward? && step.rule.Structural() && Sides(step.rule).Some?
    ensures Rewritten(w, step).Paired()
  {
    var r, m := Replacement(step), step.at;
    assert Dense(r) && forall k | 0 <= k < |r.boxes| :: EndOf(r.At(k).kind).None?;
    var after := Rewritten(w, step);
    forall a: NodeId | after.Live(a) && EndOf(after.At(a).kind).Some?
      ensures a < |w.boxes| && w.Live(a) && w.At(a).kind == after.At(a).kind
    {
      SplicedAt(w, r, m, a);
    }
  }

  /**
   * A forward step of a structural law on a graph that passes the check: whether it lands or is refused,
   * what is left passes the check, and means what the graph meant.
   */
  method StepThenCheck(
    graph: Graph, step: Step) returns (applied: Result<Step, StepError>, checked: Result<(), CheckError>)
    requires HoldsTogether(graph.S()) && step.dir.Forward? && step.rule.Structural()
    modifies graph
    ensures checked.Ok? && HoldsTogether(graph.S()) && Alike(old(graph.W()), graph.W())
    ensures applied.Ok? <==> old(Lands(graph.W(), step))
  {
    hide Store.Linked; hide Wiring.Paired; hide Wiring.Sound; hide Wiring.Acyclic; hide Alike; hide Lands;
    hide Rewritten;
    ghost var before := graph.W();
    Itself(before);
    applied := Apply(graph, step);
    if applied.Ok? {
      ForwardKeeps(before, step);
      LandsHasSides(before, step);
      ForwardKeepsPaired(before, step);
      AlikeWhole(before, graph.W());
    }
    checked := Check(graph.S());
  }

  lemma Itself(w: Wiring)
    requires w.Whole()
    ensures Alike(w, w) && w.Sound()
  {
  }

  lemma LandsHasSides(w: Wiring, step: Step)
    requires Lands(w, step)
    ensures Sides(step.rule).Some?
  {
  }

  lemma AlikeWhole(a: Wiring, b: Wiring)
    requires Alike(a, b)
    ensures b.Whole()
  {
  }
}
