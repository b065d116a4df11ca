/** A run of the table, and the walk home: every step undone, latest first. */
module Derivations {
  import opened Wrappers
  import opened Wirings
  import opened Splices
  import opened Laws
  import opened Graphs
  import opened Steps
  import opened Renamings

  // ---- what went in can be found again ----

  /** A side with no branch ends, which is every right side of a law. */
  ghost predicate Branchless(p: Wiring) {
    p.branches == 0 && forall k | p.Live(k) :: EndOf(p.At(k).kind).None?
  }

  lemma RightSidesBranchless(rule: Rule)
    requires Sides(rule).Some?
    ensures Branchless(Sides(rule).value.1)
  {
  }

  /** A step as the proofs below take it: its match, and both sides of its law. */
  ghost predicate Fired(w: Wiring, p: Wiring, r: Wiring, m: Match) {
    && w.Sound() && p.Sound() && r.Sound() && Dense(r) && p.Effect() == r.Effect() && Branchless(r)
    && Embeds(w, p, m) && Grounded(w, m) && Apart(m)
  }

  /** Only the replacement's own port goes to where it was put. */
  lemma BackImage(w: Wiring, r: Wiring, m: Match, src: Source, k: NodeId, port: nat)
    requires r.Has(src) && Dense(r) && Grounded(w, m) && |m.inputs| == r.inputs && k < |r.boxes|
    ensures Image(Back(w, r, m), src) == Port(|w.boxes| + k, port) <==> src == Port(k, port)
  {
    if src.Input? {
      assert w.Has(m.inputs[src.i]);
    }
  }

  /** The sinks accounted for at a port of what went in are the ones that read it. */
  lemma BackWants(w: Wiring, p: Wiring, r: Wiring, m: Match, k: NodeId, port: nat, sink: Sink)
    requires Fired(w, p, r, m) && k < |r.boxes|
    ensures sink in Want(Back(w, r, m), Readers(r, Port(k, port)))
      <==> Spliced(w, r, m).Reads(sink) == Some(Port(|w.boxes| + k, port))
  {
    hide Full; hide BoxFits; hide Serves; hide Spliced; hide Want; hide Readers; hide Repointed;
    var back, readers := Back(w, r, m), Readers(r, Port(k, port));
    SplicedReads(w, r, m, sink);
    WantHas(back, readers, sink);
    if sink.Slot? && sink.node >= |w.boxes| {
      BackWantsInside(w, p, r, m, k, port, sink);
    } else {
      BackWantsOutside(w, p, r, m, k, port, sink);
    }
  }

  lemma BackWantsInside(w: Wiring, p: Wiring, r: Wiring, m: Match, k: NodeId, port: nat, sink: Sink)
    requires Fired(w, p, r, m) && k < |r.boxes| && sink.Slot? && sink.node >= |w.boxes|
    ensures (exists t :: t in Readers(r, Port(k, port)) && sink in ServedFor(Back(w, r, m), t))
      <==> Spliced(w, r, m).Reads(sink) == Some(Port(|w.boxes| + k, port))
  {
    hide Full; hide BoxFits; hide Spliced; hide Readers; hide Repointed; hide Wiring.Sound;
    var back, readers := Back(w, r, m), Readers(r, Port(k, port));
    var mine := Slot(sink.node - |w.boxes|, sink.port);
    SplicedReads(w, r, m, sink);
    ReadersHas(r, Port(k, port), mine);
    if r.Reads(mine).Some? {
      SoundReads(r, mine);
      BackImage(w, r, m, r.Reads(mine).value, k, port);
      assert sink in ServedFor(back, mine);
    }
    forall t | t in readers && sink in ServedFor(back, t) ensures t == mine {
      ReadersHas(r, Port(k, port), t);
      assert t.Output? ==> Serves(w, p, m, t.i);
    }
  }

  lemma SoundReads(w: Wiring, sink: Sink)
    requires w.Sound() && w.Reads(sink).Some?
    ensures w.Has(w.Reads(sink).value)
  {
  }

  lemma BackWantsOutside(w: Wiring, p: Wiring, r: Wiring, m: Match, k: NodeId, port: nat, sink: Sink)
    requires Fired(w, p, r, m) && k < |r.boxes| && !(sink.Slot? && sink.node >= |w.boxes|)
    ensures (exists t :: t in Readers(r, Port(k, port)) && sink in ServedFor(Back(w, r, m), t))
      <==> Spliced(w, r, m).Reads(sink) == Some(Port(|w.boxes| + k, port))
  {
    hide Full; hide BoxFits; hide Spliced; hide Readers; hide Wiring.Sound;
    var back, readers := Back(w, r, m), Readers(r, Port(k, port));
    SplicedReads(w, r, m, sink);
    var served := ServedBy(m.outputs, sink);
    match served {
      case Some(j) =>
        ServedIsOutside(w, p, m, sink);
        OutputsHeld(r, j);
        BackImage(w, r, m, r.outputs[j], k, port);
        ReadersHas(r, Port(k, port), Output(j));
        assert sink in ServedFor(back, Output(j));
        forall t | t in readers && sink in ServedFor(back, t) ensures t == Output(j) {
          ReadersHas(r, Port(k, port), t);
          ServedOnce(m, sink, j, t);
        }
      case None =>
        if w.Reads(sink).Some? {
          SoundReads(w, sink);
        }
        forall t | t in readers ensures sink !in ServedFor(back, t) {
        }
    }
  }

  lemma ServedOnce(m: Match, sink: Sink, j: nat, t: Sink)
    requires Apart(m) && j < |m.outputs| && sink in m.outputs[j] && t.Output?
    ensures t.i < |m.outputs| && sink in m.outputs[t.i] ==> t.i == j
  {
  }

  lemma BackFull(w: Wiring, p: Wiring, r: Wiring, m: Match, k: NodeId, port: nat)
    requires Fired(w, p, r, m) && k < |r.boxes|
    ensures Full(Spliced(w, r, m), Back(w, r, m), Readers(r, Port(k, port)), Port(|w.boxes| + k, port))
  {
    hide Full; hide BoxFits; hide Spliced; hide Readers;
    var back, readers := Back(w, r, m), Readers(r, Port(k, port));
    forall sink
      ensures sink in Want(back, readers) <==> Spliced(w, r, m).Reads(sink) == Some(Port(|w.boxes| + k, port))
    {
      BackWants(w, p, r, m, k, port, sink);
    }
    ReadersDistinct(r, Port(k, port));
    forall t, u, x | t in readers && u in readers && t != u && x in ServedFor(back, t)
      ensures x !in ServedFor(back, u)
    {
      ReadersHas(r, Port(k, port), t);
      ReadersHas(r, Port(k, port), u);
      ServedApart(w, p, r, m, t, u, x);
    }
    WantDistinct(back, readers);
    FullMeans(Spliced(w, r, m), back, readers, Port(|w.boxes| + k, port));
  }

  lemma ServedApart(w: Wiring, p: Wiring, r: Wiring, m: Match, t: Sink, u: Sink, x: Sink)
    requires Fired(w, p, r, m) && r.Reads(t).Some? && r.Reads(u).Some? && t != u
    requires x in ServedFor(Back(w, r, m), t)
    ensures x !in ServedFor(Back(w, r, m), u)
  {
    hide Full; hide BoxFits;
    assert t.Output? ==> Serves(w, p, m, t.i);
    assert u.Output? ==> Serves(w, p, m, u.i);
  }

  /** The step back is a match of what went in, and its boundary is still there. */
  lemma InverseEmbeds(w: Wiring, p: Wiring, r: Wiring, m: Match)
    requires Fired(w, p, r, m)
    ensures Embeds(Spliced(w, r, m), r, Back(w, r, m)) && Grounded(Spliced(w, r, m), Back(w, r, m))
  {
    hide Full; hide BoxFits;
    var s, back := Spliced(w, r, m), Back(w, r, m);
    hide Spliced;
    forall k: NodeId | k < |r.boxes| ensures s.Live(back.nodes[k]) && BoxFits(s, r, back, k) {
      BackBoxFits(w, p, r, m, k);
    }
    forall j: nat | j < |r.outputs| ensures Serves(s, r, back, j) {
      forall sink | sink in m.outputs[j]
        ensures s.Reads(sink) == Some(Image(back, r.outputs[j])) && !Inside(back, sink)
      {
        assert Serves(w, p, m, j);
        SplicedReads(w, r, m, sink);
        ServedOnce(m, sink, j, Output(ServedBy(m.outputs, sink).value));
      }
    }
    forall i | 0 <= i < |m.inputs| ensures s.Has(m.inputs[i]) && !PortInside(back, m.inputs[i]) {
      SplicedHas(w, r, m, m.inputs[i]);
    }
  }

  lemma BackBoxFits(w: Wiring, p: Wiring, r: Wiring, m: Match, k: NodeId)
    requires Fired(w, p, r, m) && k < |r.boxes|
    ensures Spliced(w, r, m).Live(Back(w, r, m).nodes[k]) && BoxFits(Spliced(w, r, m), r, Back(w, r, m), k)
  {
    hide Full; hide Spliced;
    SplicedAt(w, r, m, |w.boxes| + k);
    assert r.Live(k);
    forall port: nat | port < r.At(k).kind.Effect().outputs
      ensures Full(Spliced(w, r, m), Back(w, r, m), Readers(r, Port(k, port)), Port(|w.boxes| + k, port))
    {
      BackFull(w, p, r, m, k, port);
    }
  }

  // ---- a match said again under new names ----

  lemma RebasedImage(p: Wiring, m: Match, f: Moves, src: Source)
    requires p.Has(src) && |m.nodes| == |p.boxes| && |m.inputs| == p.inputs
    ensures Image(Rebase(m, f), src) == NowSource(f, Image(m, src))
  {
  }

  lemma {:induction false} RebasedWant(m: Match, f: Moves, readers: seq<Sink>)
    ensures Want(Rebase(m, f), readers) == NowSinks(f, Want(m, readers))
  {
    if readers != [] {
      RebasedWant(m, f, readers[1..]);
      RebasedServes(m, f, readers[0]);
      hide Rebase; hide NowSinks; hide ServedFor;
      NowSinksJoin(f, ServedFor(m, readers[0]), Want(m, readers[1..]));
    }
  }

  lemma RebasedServes(m: Match, f: Moves, r: Sink)
    ensures ServedFor(Rebase(m, f), r) == NowSinks(f, ServedFor(m, r))
  {
  }

  lemma NowSinksJoin(f: Moves, a: seq<Sink>, b: seq<Sink>)
    ensures NowSinks(f, a + b) == NowSinks(f, a) + NowSinks(f, b)
  {
  }

  lemma RebasedFull(a: Wiring, b: Wiring, f: Moves, m: Match, readers: seq<Sink>, src: Source)
    requires a.Sound() && b.Sound() && Renamed(a, b, f) && a.Has(src) && Full(a, m, readers, src)
    ensures Full(b, Rebase(m, f), readers, NowSource(f, src))
  {
    var want := Want(m, readers);
    FullMeans(a, m, readers, src);
    hide Full; hide Want;
    RebasedWant(m, f, readers);
    var said := NowSinks(f, want);
    forall i, j | 0 <= i < j < |want| ensures said[i] != said[j] {
      assert want[i] in want && want[j] in want;
      if said[i] == said[j] {
        SinksApart(a, b, f, want[i], want[j]);
      }
    }
    forall sink ensures sink in said <==> b.Reads(sink) == Some(NowSource(f, src)) {
      if b.Reads(sink) == Some(NowSource(f, src)) {
        var s := SinkStood(a, b, f, sink);
        SourcesApart(a, b, f, a.Reads(s).value, src);
        var i :| 0 <= i < |want| && want[i] == s;
        assert said[i] == sink;
      }
      if sink in said {
        var i :| 0 <= i < |said| && said[i] == sink;
        assert want[i] in want;
      }
    }
    FullMeans(b, Rebase(m, f), readers, NowSource(f, src));
  }

  lemma RebasedBoxFits(a: Wiring, b: Wiring, f: Moves, p: Wiring, m: Match, k: NodeId)
    requires a.Sound() && b.Sound() && p.Sound() && Renamed(a, b, f) && Embeds(a, p, m) && Branchless(p)
    requires k < |p.boxes|
    ensures b.Live(Rebase(m, f).nodes[k]) && BoxFits(b, p, Rebase(m, f), k)
  {
    hide Full; hide Readers; hide Serves;
    assert BoxFits(a, p, m, k) && p.Live(k);
    var id := m.nodes[k];
    var box, host, there := p.At(k), a.At(id), b.At(Now(f, id));
    assert there.kind == host.kind == box.kind;
    Wirings.Readable(p, k);
    forall q: nat | q < |box.inputs| ensures there.inputs[q] == Image(Rebase(m, f), box.inputs[q]) {
      RebasedImage(p, m, f, box.inputs[q]);
      assert a.Reads(Slot(id, q)) == Some(Image(m, box.inputs[q]));
      assert b.Reads(NowSink(f, Slot(id, q))) == Some(NowSource(f, Image(m, box.inputs[q])));
    }
    assert there.inputs == Images(Rebase(m, f), box.inputs);
    forall port: nat | port < box.kind.Effect().outputs
      ensures Full(b, Rebase(m, f), Readers(p, Port(k, port)), Port(Now(f, id), port))
    {
      RebasedFull(a, b, f, m, Readers(p, Port(k, port)), Port(id, port));
    }
  }

  /** A match holds wherever its graph is renamed to. */
  lemma RebasedEmbeds(a: Wiring, b: Wiring, f: Moves, p: Wiring, m: Match)
    requires a.Sound() && b.Sound() && p.Sound() && Renamed(a, b, f) && Embeds(a, p, m) && Branchless(p)
    requires Grounded(a, m)
    ensures Embeds(b, p, Rebase(m, f)) && Grounded(b, Rebase(m, f))
  {
    hide Full; hide BoxFits;
    var n := Rebase(m, f);
    forall k: NodeId | k < |p.boxes| ensures b.Live(n.nodes[k]) && BoxFits(b, p, n, k) {
      RebasedBoxFits(a, b, f, p, m, k);
    }
    forall j: nat | j < |p.outputs| ensures Serves(b, p, n, j) {
      OutputsHeld(p, j);
      RebasedImage(p, m, f, p.outputs[j]);
      assert Serves(a, p, m, j);
      forall t | 0 <= t < |n.outputs[j]|
        ensures b.Reads(n.outputs[j][t]) == Some(Image(n, p.outputs[j])) && !Inside(n, n.outputs[j][t])
      {
        assert m.outputs[j][t] in m.outputs[j];
      }
    }
    forall i | 0 <= i < |m.inputs| ensures b.Has(n.inputs[i]) && !PortInside(n, n.inputs[i]) {
      assert a.Has(m.inputs[i]);
      RenamedHas(a, b, f, m.inputs[i]);
    }
  }

  lemma RenamedHas(a: Wiring, b: Wiring, f: Moves, src: Source)
    requires Renamed(a, b, f) && a.Has(src)
    ensures b.Has(NowSource(f, src))
  {
    if src.Port? {
      LikeKindShapes(a.At(src.node).kind, b.At(Now(f, src.node)).kind);
    }
  }

  // ---- undoing one step ----

  /** What a box used to be, as the box put back for it. */
  function Moved(f: Moves, was: seq<NodeId>, now: seq<NodeId>): Moves
    requires |was| == |now|
    decreases |was|
  {
    if was == [] then f else Moved(f[was[0] := now[0]], was[1..], now[1..])
  }

  lemma {:induction false} MovedFinds(f: Moves, was: seq<NodeId>, now: seq<NodeId>, id: NodeId)
    requires |was| == |now| && Distinct(was)
    ensures forall i | 0 <= i < |was| && was[i] == id :: Now(Moved(f, was, now), id) == now[i]
    ensures id !in was ==> Now(Moved(f, was, now), id) == Now(f, id)
    decreases |was|
  {
    if was != [] {
      MovedFinds(f[was[0] := now[0]], was[1..], now[1..], id);
      if id == was[0] {
        assert id !in was[1..];
      }
      forall i | 0 < i < |was| && was[i] == id ensures Now(Moved(f, was, now), id) == now[i] {
        assert was[1..][i - 1] == id;
      }
    }
  }

  /** A step, the graph it left under new names, and the step undone there. */
  ghost predicate Undone(w: Wiring, p: Wiring, r: Wiring, m: Match, b: Wiring, f: Moves) {
    && Fired(w, p, r, m) && Dense(p) && Spliced(w, r, m).Sound() && b.Sound() && Renamed(Spliced(w, r, m), b, f)
  }

  ghost function Home(w: Wiring, p: Wiring, r: Wiring, m: Match, b: Wiring, f: Moves): Wiring {
    Spliced(b, p, Rebase(Back(w, r, m), f))
  }

  ghost function HomeMoves(w: Wiring, p: Wiring, r: Wiring, m: Match, b: Wiring, f: Moves): Moves
    requires |m.nodes| == |p.boxes|
  {
    Moved(f, m.nodes, Back(b, p, Rebase(Back(w, r, m), f)).nodes)
  }

  /** A pattern's source, where it stood before the step and where it stands now. */
  lemma HomeSource(w: Wiring, p: Wiring, r: Wiring, m: Match, b: Wiring, f: Moves, src: Source)
    requires Undone(w, p, r, m, b, f) && p.Has(src)
    ensures NowSource(HomeMoves(w, p, r, m, b, f), Image(m, src)) == Image(Back(b, p, Rebase(Back(w, r, m), f)), src)
  {
    hide Full; hide BoxFits; hide Serves; hide Spliced; hide Moved; hide Renamed; hide Wiring.Sound;
    var now := Back(b, p, Rebase(Back(w, r, m), f)).nodes;
    match src
    case Input(i) =>
      if m.inputs[i].Port? {
        MovedFinds(f, m.nodes, now, m.inputs[i].node);
      }
    case Port(k, _) =>
      MovedFinds(f, m.nodes, now, m.nodes[k]);
  }

  lemma HomeReadsInside(w: Wiring, p: Wiring, r: Wiring, m: Match, b: Wiring, f: Moves, sink: Sink)
    requires Undone(w, p, r, m, b, f) && w.Reads(sink).Some? && Inside(m, sink)
    ensures Home(w, p, r, m, b, f).Reads(NowSink(HomeMoves(w, p, r, m, b, f), sink))
      == Some(NowSource(HomeMoves(w, p, r, m, b, f), w.Reads(sink).value))
  {
    hide Full; hide Serves; hide Spliced; hide Moved; hide Renamed;
    var n := Rebase(Back(w, r, m), f);
    var now := Back(b, p, n).nodes;
    var i :| 0 <= i < |m.nodes| && m.nodes[i] == sink.node;
    MovedFinds(f, m.nodes, now, sink.node);
    assert BoxFits(w, p, m, i) && p.Live(i);
    Wirings.Readable(p, i);
    var src := p.At(i).inputs[sink.port];
    assert w.Reads(sink) == Some(Image(m, src));
    HomeSource(w, p, r, m, b, f, src);
    SplicedReads(b, p, n, Slot(|b.boxes| + i, sink.port));
  }

  lemma RebasedServed(w: Wiring, p: Wiring, r: Wiring, m: Match, b: Wiring, f: Moves, sink: Sink, j: nat)
    requires Undone(w, p, r, m, b, f) && Spliced(w, r, m).Reads(sink).Some? && j < |m.outputs|
    ensures NowSink(f, sink) in Rebase(Back(w, r, m), f).outputs[j] <==> sink in m.outputs[j]
  {
    hide Full; hide BoxFits; hide Spliced; hide Renamed; hide Wiring.Sound;
    var said := Rebase(Back(w, r, m), f).outputs[j];
    assert Serves(w, p, m, j);
    if sink in m.outputs[j] {
      var t :| 0 <= t < |m.outputs[j]| && m.outputs[j][t] == sink;
      assert said[t] == NowSink(f, sink);
    }
    if NowSink(f, sink) in said {
      var t :| 0 <= t < |said| && said[t] == NowSink(f, sink);
      var other := m.outputs[j][t];
      assert other in m.outputs[j];
      SplicedReads(w, r, m, other);
      SinksApart(Spliced(w, r, m), b, f, sink, other);
    }
  }

  lemma HomeReadsOutside(w: Wiring, p: Wiring, r: Wiring, m: Match, b: Wiring, f: Moves, sink: Sink)
    requires Undone(w, p, r, m, b, f) && w.Reads(sink).Some? && !Inside(m, sink)
    ensures Home(w, p, r, m, b, f).Reads(NowSink(HomeMoves(w, p, r, m, b, f), sink))
      == Some(NowSource(HomeMoves(w, p, r, m, b, f), w.Reads(sink).value))
  {
    hide Full; hide BoxFits; hide Spliced; hide Moved; hide Renamed; hide Wiring.Sound;
    var n := Rebase(Back(w, r, m), f);
    var s := Spliced(w, r, m);
    SplicedReads(w, r, m, sink);
    OldSinkStays(w, p, r, m, b, f, sink);
    HomeSinkReads(w, p, r, m, b, f, sink);
    var was := w.Reads(sink).value;
    match ServedBy(m.outputs, sink) {
      case Some(j) =>
        ServedIsOutside(w, p, m, sink);
        OutputsHeld(p, j);
        HomeSource(w, p, r, m, b, f, p.outputs[j]);
      case None =>
        UnservedOutside(w, p, m, sink);
        if was.Port? {
          MovedFinds(f, m.nodes, Back(b, p, n).nodes, was.node);
        }
    }
  }

  lemma UnservedOutside(w: Wiring, p: Wiring, m: Match, sink: Sink)
    requires w.Sound() && Embeds(w, p, m) && w.Reads(sink).Some? && !Inside(m, sink) && ServedBy(m.outputs, sink).None?
    ensures !PortInside(m, w.Reads(sink).value)
  {
    hide Full; hide BoxFits; hide Serves; hide Wiring.Sound;
    var was := w.Reads(sink).value;
    if PortInside(m, was) {
      var k: NodeId :| k < |m.nodes| && m.nodes[k] == was.node;
      var j := LooseEndsServed(w, p, m, sink, k, was.port);
    }
  }

  /** A sink from outside is called what it was called, and it is still outside. */
  lemma OldSinkStays(w: Wiring, p: Wiring, r: Wiring, m: Match, b: Wiring, f: Moves, sink: Sink)
    requires Undone(w, p, r, m, b, f) && w.Reads(sink).Some? && !Inside(m, sink)
    ensures NowSink(HomeMoves(w, p, r, m, b, f), sink) == NowSink(f, sink)
    ensures !Inside(Rebase(Back(w, r, m), f), NowSink(f, sink))
    ensures NowSink(f, sink).Slot? ==> NowSink(f, sink).node < |b.boxes|
    ensures Spliced(w, r, m).Reads(sink).Some?
  {
    hide Full; hide BoxFits; hide Serves; hide Spliced; hide Moved; hide Wiring.Sound;
    SplicedReads(w, r, m, sink);
    if sink.Slot? {
      MovedFinds(f, m.nodes, Back(b, p, Rebase(Back(w, r, m), f)).nodes, sink.node);
      OldBoxStays(w, p, r, m, b, f, sink.node);
    }
  }

  lemma OldBoxStays(w: Wiring, p: Wiring, r: Wiring, m: Match, b: Wiring, f: Moves, id: NodeId)
    requires Undone(w, p, r, m, b, f) && w.Live(id) && id !in m.nodes
    ensures Spliced(w, r, m).Live(id) && Now(f, id) < |b.boxes| && Now(f, id) !in Rebase(Back(w, r, m), f).nodes
  {
    hide Full; hide BoxFits; hide Serves; hide Spliced; hide Wiring.Sound;
    SplicedAt(w, r, m, id);
    var nodes := Rebase(Back(w, r, m), f).nodes;
    forall k: NodeId | k < |r.boxes| ensures nodes[k] != Now(f, id) {
      SplicedAt(w, r, m, |w.boxes| + k);
    }
  }

  /** What such a sink reads once the step is undone, by whom it was handed to. */
  lemma HomeSinkReads(w: Wiring, p: Wiring, r: Wiring, m: Match, b: Wiring, f: Moves, sink: Sink)
    requires Undone(w, p, r, m, b, f) && w.Reads(sink).Some? && !Inside(m, sink)
    ensures var n := Rebase(Back(w, r, m), f);
      Home(w, p, r, m, b, f).Reads(NowSink(f, sink)) == match ServedBy(m.outputs, sink)
        case Some(j) => Some(Image(Back(b, p, n), p.outputs[j]))
        case None => Some(NowSource(f, w.Reads(sink).value))
  {
    hide Full; hide BoxFits; hide Serves; hide Spliced; hide Wiring.Sound;
    var n := Rebase(Back(w, r, m), f);
    OldSinkStays(w, p, r, m, b, f, sink);
    SplicedReads(w, r, m, sink);
    SplicedReads(b, p, n, NowSink(f, sink));
    forall j: nat | j < |m.outputs| ensures NowSink(f, sink) in n.outputs[j] <==> sink in m.outputs[j] {
      RebasedServed(w, p, r, m, b, f, sink, j);
    }
    match ServedBy(m.outputs, sink)
    case Some(j) =>
      var j' := ServedBy(n.outputs, NowSink(f, sink)).value;
      ServedOnce(m, sink, j, Output(j'));
    case None =>
  }

  /** The step undone under new names gives back the graph it was taken from, renamed. */
  lemma WalksHome(w: Wiring, p: Wiring, r: Wiring, m: Match, b: Wiring, f: Moves)
    requires Undone(w, p, r, m, b, f)
    ensures Renamed(w, Home(w, p, r, m, b, f), HomeMoves(w, p, r, m, b, f))
  {
    hide Full; hide Serves; hide Spliced; hide Moved; hide Wiring.Sound; hide Home; hide HomeMoves; hide Stood;
    var c, g := Home(w, p, r, m, b, f), HomeMoves(w, p, r, m, b, f);
    HomeShape(w, p, r, m, b, f);
    forall id: NodeId | w.Live(id) ensures c.Live(Now(g, id)) && LikeKind(w.At(id).kind, c.At(Now(g, id)).kind) {
      HomeBox(w, p, r, m, b, f, id);
    }
    forall x: NodeId, y: NodeId | w.Live(x) && w.Live(y) && Now(g, x) == Now(g, y) ensures x == y {
      HomeBox(w, p, r, m, b, f, x);
      HomeBox(w, p, r, m, b, f, y);
    }
    forall id: NodeId | c.Live(id) ensures Stood(w, g, id) {
      HomeStood(w, p, r, m, b, f, id);
    }
    forall sink | w.Reads(sink).Some? ensures c.Reads(NowSink(g, sink)) == Some(NowSource(g, w.Reads(sink).value)) {
      if Inside(m, sink) {
        HomeReadsInside(w, p, r, m, b, f, sink);
      } else {
        HomeReadsOutside(w, p, r, m, b, f, sink);
      }
    }
  }

  lemma HomeShape(w: Wiring, p: Wiring, r: Wiring, m: Match, b: Wiring, f: Moves)
    requires Undone(w, p, r, m, b, f)
    ensures Home(w, p, r, m, b, f).inputs == w.inputs && |Home(w, p, r, m, b, f).outputs| == |w.outputs|
  {
    hide Full; hide BoxFits; hide Serves; hide Wiring.Sound;
  }

  /** Where each box of the start is found: put back past the end, or where its renaming has it. */
  lemma HomeBox(w: Wiring, p: Wiring, r: Wiring, m: Match, b: Wiring, f: Moves, id: NodeId)
    requires Undone(w, p, r, m, b, f) && w.Live(id)
    ensures var (c, at) := (Home(w, p, r, m, b, f), Now(HomeMoves(w, p, r, m, b, f), id));
      && c.Live(at) && LikeKind(w.At(id).kind, c.At(at).kind)
      && (if id in m.nodes then at >= |b.boxes| && at - |b.boxes| < |m.nodes| && m.nodes[at - |b.boxes|] == id
          else at == Now(f, id) && at < |b.boxes| && Spliced(w, r, m).Live(id))
  {
    hide Full; hide Serves; hide Spliced; hide Moved; hide Wiring.Sound;
    var n := Rebase(Back(w, r, m), f);
    MovedFinds(f, m.nodes, Back(b, p, n).nodes, id);
    if id in m.nodes {
      var i :| 0 <= i < |m.nodes| && m.nodes[i] == id;
      assert BoxFits(w, p, m, i);
      SplicedAt(b, p, n, |b.boxes| + i);
    } else {
      OldBoxStays(w, p, r, m, b, f, id);
      SplicedAt(w, r, m, id);
      SplicedAt(b, p, n, Now(f, id));
    }
  }

  /** What went in is what the inverse match names, under whatever name it has now. */
  lemma ArrivalMoves(w: Wiring, p: Wiring, r: Wiring, m: Match, f: Moves, x: NodeId)
    requires Fired(w, p, r, m) && Spliced(w, r, m).Live(x) && x >= |w.boxes|
    ensures Now(f, x) in Rebase(Back(w, r, m), f).nodes
  {
    hide Full; hide Serves; hide BoxFits; hide Spliced; hide Wiring.Sound; hide Embeds;
    SplicedAt(w, r, m, x);
    var nodes := Rebase(Back(w, r, m), f).nodes;
    assert nodes[x - |w.boxes|] == Now(f, x);
  }

  lemma HomeStood(w: Wiring, p: Wiring, r: Wiring, m: Match, b: Wiring, f: Moves, id: NodeId)
    requires Undone(w, p, r, m, b, f) && Home(w, p, r, m, b, f).Live(id)
    ensures Stood(w, HomeMoves(w, p, r, m, b, f), id)
  {
    hide Full; hide Serves; hide BoxFits; hide Spliced; hide Moved; hide Wiring.Sound;
    var n := Rebase(Back(w, r, m), f);
    var g := HomeMoves(w, p, r, m, b, f);
    SplicedAt(b, p, n, id);
    if id >= |b.boxes| {
      var i := id - |b.boxes|;
      MovedFinds(f, m.nodes, Back(b, p, n).nodes, m.nodes[i]);
      assert w.Live(m.nodes[i]) && Now(g, m.nodes[i]) == id;
    } else {
      assert Stood(Spliced(w, r, m), f, id);
      var x: NodeId :| Spliced(w, r, m).Live(x) && Now(f, x) == id;
      SplicedAt(w, r, m, x);
      if x >= |w.boxes| {
        ArrivalMoves(w, p, r, m, f, x);
      }
      MovedFinds(f, m.nodes, Back(b, p, n).nodes, x);
      assert w.Live(x) && Now(g, x) == id;
    }
  }

  // ---- whole runs ----

  /** A forward step of a structural law that lands. */
  ghost predicate GoesForward(w: Wiring, step: Step) {
    step.dir.Forward? && step.rule.Structural() && Lands(w, step)
  }

  /** The step lands, and in a way that can be taken back: no reader named twice, no branch end put in. */
  ghost predicate Reverses(w: Wiring, step: Step) {
    Sides(step.rule).Some? && Fired(w, Pattern(step), Replacement(step), step.at)
  }

  /** Forward steps can be taken back. */
  lemma ForwardReverses(w: Wiring, step: Step)
    requires w.Sound() && step.dir.Forward? && Lands(w, step)
    ensures Reverses(w, step)
  {
    hide Embeds; hide Spliced; hide Wiring.Sound; hide Wiring.Acyclic;
    ForwardIsGrounded(w, step);
    SidesReady(step.rule);
    RightSidesBranchless(step.rule);
    LeftOutputsDistinct(step.rule);
    PinnedIsApart(w, Pattern(step), step.at);
  }

  lemma ForwardFires(w: Wiring, step: Step)
    requires w.Whole() && GoesForward(w, step)
    ensures Fired(w, Pattern(step), Replacement(step), step.at) && Rewritten(w, step).Whole() && Dense(Pattern(step))
  {
    hide Embeds; hide Spliced; hide Flat; hide Wiring.Sound; hide Wiring.Acyclic; hide Pinned; hide Alike; hide Fired;
    ForwardReverses(w, step);
    ForwardKeeps(w, step);
    AlikeIsWhole(w, Rewritten(w, step));
    SidesReady(step.rule);
  }

  lemma AlikeIsWhole(a: Wiring, b: Wiring)
    requires Alike(a, b)
    ensures b.Whole()
  {
  }

  lemma PinnedPorts(p: Wiring)
    requires Pinned(p)
    ensures forall j | 0 <= j < |p.outputs| :: p.outputs[j].Port?
  {
  }

  /** The graphs a run passes through, from the one it starts at to the one it leaves. */
  ghost predicate Ran(history: seq<Wiring>, steps: seq<(Step, Step)>) {
    && |history| == |steps| + 1 && history[0].Sound()
    && forall k | 0 <= k < |steps| :: Leg(history[k], steps[k], history[k + 1])
  }

  ghost predicate Leg(w: Wiring, step: (Step, Step), next: Wiring) {
    && w.Sound() && Lands(w, step.0) && next == Rewritten(w, step.0) && next.Sound()
    && step.1 == Inverse(w, step.0)
  }

  /** A run keeps branch ends minted and paired. */
  lemma {:induction false} RunKeepsEnds(history: seq<Wiring>, steps: seq<(Step, Step)>, n: nat)
    requires Ran(history, steps) && Ended(history[0]) && n <= |steps|
    ensures Ended(history[n])
    decreases n
  {
    hide Ended; hide Rewritten; hide Wiring.Sound;
    if n > 0 {
      RunKeepsEnds(history, steps, n - 1);
      assert Leg(history[n - 1], steps[n - 1], history[n - 1 + 1]);
      MatchNamesBranches(history[n - 1], steps[n - 1].0);
      StepKeepsEnds(history[n - 1], steps[n - 1].0);
    }
  }

  lemma MatchNamesBranches(w: Wiring, step: Step)
    requires Lands(w, step)
    ensures Sides(step.rule).Some? && |step.at.branches| == Pattern(step).branches
  {
  }

  /** A run of steps, each paired with the one that undoes it. */
  class Derivation {
    var steps: seq<(Step, Step)>
    ghost var history: seq<Wiring>

    ghost predicate Valid()
      reads this
    {
      Ran(history, steps)
    }

    ghost function Start(): Wiring
      reads this
      requires Valid()
    {
      history[0]
    }

    ghost function End(): Wiring
      reads this
      requires Valid()
    {
      history[|steps|]
    }

    constructor (ghost w: Wiring)
      requires w.Sound()
      ensures Valid() && Start() == End() == w && steps == []
    {
      steps, history := [], [w];
    }

    /** Every step of the run can be taken back. */
    ghost predicate Reversible()
      reads this
      requires Valid()
    {
      forall k | 0 <= k < |steps| :: Reverses(history[k], steps[k].0)
    }

    /** One more rewrite, applied and recorded. A run of forward steps stays one that can be taken back. */
    method Push(graph: Graph, step: Step) returns (r: Result<(), StepError>)
      requires Valid() && graph.S().Linked() && graph.W() == End()
      requires step.dir.Backward? && Lands(graph.W(), step) ==> Grounded(graph.W(), step.at)
      modifies this, graph
      ensures Valid() && Start() == old(Start()) && graph.S().Linked() && graph.W() == End()
      ensures r.Ok? <==> old(Lands(graph.W(), step))
      ensures r.Ok? ==> graph.W() == Rewritten(old(graph.W()), step)
      ensures r.Ok? ==> steps == old(steps) + [(step, Inverse(old(graph.W()), step))]
      ensures r.Err? ==> steps == old(steps) && graph.S() == old(graph.S())
      ensures old(Reversible()) && (step.dir.Forward? || r.Err? || old(Reverses(graph.W(), step))) ==> Reversible()
    {
      hide Lands; hide Rewritten; hide Inverse; hide Store.Linked; hide Reverses; hide Wiring.Sound; hide Grounded;
      ghost var w := graph.W();
      EndSound();
      var back := Apply(graph, step);
      if back.Err? {
        return Err(back.error);
      }
      if step.dir.Forward? {
        ForwardReverses(w, step);
      }
      ghost var (h, s) := (history, steps);
      steps := steps + [(step, back.value)];
      history := history + [graph.W()];
      assert Leg(w, (step, back.value), graph.W());
      forall k | 0 <= k < |steps| ensures Leg(history[k], steps[k], history[k + 1]) {
        assert k < |s| ==> Leg(h[k], s[k], h[k + 1]);
      }
      r := Ok(());
    }

    lemma EndSound()
      requires Valid()
      ensures End().Sound()
    {
      if |steps| > 0 {
        assert Leg(history[|steps| - 1], steps[|steps| - 1], history[|steps| - 1 + 1]);
      }
    }

    /**
     * Walks the run backwards. Each recorded inverse lands, its match carried over to the names in use by
     * then, and the graph ends as the start of the run under new names, whole and with its branch ends paired
     * if the start was.
     */
    method Undo(graph: Graph) returns (ghost moved: Moves)
      requires Valid() && Reversible() && graph.S().Linked() && graph.W() == End()
      modifies graph
      ensures graph.S().Linked() && Renamed(Start(), graph.W(), moved) && graph.W().Sound()
      ensures Start().Whole() ==> graph.W().Whole()
      ensures Ended(Start()) ==> Ended(graph.W())
    {
      hide Store.Linked; hide Renamed; hide Spliced; hide Embeds; hide Wiring.Sound; hide Wiring.Acyclic; hide Ended;
      hide Rewritten; hide Fired;
      var moves: Moves := map[];
      EndSound();
      RenamedToItself(graph.W());
      if Ended(Start()) {
        RunKeepsEnds(history, steps, |steps|);
      }
      for k: nat := |steps| downto 0
        invariant graph.S().Linked() && graph.W().Sound() && Renamed(history[k], graph.W(), moves)
        invariant Ended(history[0]) ==> Ended(graph.W())
      {
        var (forward, back) := steps[k];
        assert Leg(history[k], steps[k], history[k + 1]) && Reverses(history[k], steps[k].0);
        BackLands(history[k], forward, graph.W(), moves);
        var here := Step(back.rule, back.dir, Rebase(back.at, moves));
        MatchNamesBranches(graph.W(), here);
        if Ended(history[0]) {
          StepKeepsEnds(graph.W(), here);
        }
        var restored := Apply(graph, here);
        moves := Moved(moves, forward.at.nodes, restored.value.at.nodes);
      }
      if Start().Whole() {
        RenamedWhole(history[0], graph.W(), moves);
      }
      return moves;
    }

    /** The inverse of a step, said again, lands; and what it leaves is the step's start, renamed. */
    lemma BackLands(w: Wiring, forward: Step, b: Wiring, f: Moves)
      requires Reverses(w, forward) && Rewritten(w, forward).Sound()
      requires b.Sound() && Renamed(Rewritten(w, forward), b, f)
      ensures var here := Step(forward.rule, forward.dir.Flipped(), Rebase(Inverse(w, forward).at, f));
        && Lands(b, here) && Grounded(b, here.at)
        && |forward.at.nodes| == |Inverse(b, here).at.nodes|
        && Renamed(w, Rewritten(b, here), Moved(f, forward.at.nodes, Inverse(b, here).at.nodes))
    {
      hide Full; hide BoxFits; hide Serves; hide Spliced; hide Renamed; hide Wiring.Sound; hide Wiring.Acyclic;
      var (p, r) := (Pattern(forward), Replacement(forward));
      SidesReady(forward.rule);
      InverseEmbeds(w, p, r, forward.at);
      RebasedEmbeds(Spliced(w, r, forward.at), b, f, r, Back(w, r, forward.at));
      WalksHome(w, p, r, forward.at, b, f);
    }
  }
}
