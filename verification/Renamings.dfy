/** The same graph under other box ids: what undoing a rewrite gives back. */
module Renamings {
  import opened Wrappers
  import opened Wirings
  import opened Splices
  import opened Laws

  /** Boxes put back are new boxes; a box that never went keeps its id. */
  type Moves = map<NodeId, NodeId>

  function Now(f: Moves, id: NodeId): NodeId {
    if id in f then f[id] else id
  }

  function NowSource(f: Moves, src: Source): Source {
    match src
    case Input(_) => src
    case Port(node, port) => Port(Now(f, node), port)
  }

  function NowSink(f: Moves, sink: Sink): Sink {
    match sink
    case Output(_) => sink
    case Slot(node, port) => Slot(Now(f, node), port)
  }

  function NowNodes(f: Moves, s: seq<NodeId>): (r: seq<NodeId>)
    ensures |r| == |s| && forall k | 0 <= k < |s| :: r[k] == Now(f, s[k])
  {
    seq(|s|, k requires 0 <= k < |s| => Now(f, s[k]))
  }

  function NowSources(f: Moves, s: seq<Source>): (r: seq<Source>)
    ensures |r| == |s| && forall k | 0 <= k < |s| :: r[k] == NowSource(f, s[k])
  {
    seq(|s|, k requires 0 <= k < |s| => NowSource(f, s[k]))
  }

  function NowSinks(f: Moves, s: seq<Sink>): (r: seq<Sink>)
    ensures |r| == |s| && forall k | 0 <= k < |s| :: r[k] == NowSink(f, s[k])
  {
    seq(|s|, k requires 0 <= k < |s| => NowSink(f, s[k]))
  }

  /** A match with every box and source it mentions replaced by what it is called now. */
  function Rebase(m: Match, f: Moves): Match {
    Match(NowNodes(f, m.nodes), NowSources(f, m.inputs),
      seq(|m.outputs|, j requires 0 <= j < |m.outputs| => NowSinks(f, m.outputs[j])), m.branches)
  }

  /** The same box, whatever its branch is called. */
  predicate LikeKind(a: Kind, b: Kind) {
    match (a, b)
    case (Fork(n, _), Fork(m, _)) => n == m
    case (Select(n, _), Select(m, _)) => n == m
    case (x, y) => x == y
  }

  /** One graph up to the names of its boxes, with branch ids ignored. */
  ghost predicate Renamed(a: Wiring, b: Wiring, f: Moves) {
    && a.inputs == b.inputs && |a.outputs| == |b.outputs|
    && (forall id | a.Live(id) :: b.Live(Now(f, id)) && LikeKind(a.At(id).kind, b.At(Now(f, id)).kind))
    && (forall x, y | a.Live(x) && a.Live(y) && Now(f, x) == Now(f, y) :: x == y)
    && (forall id | b.Live(id) :: Stood(a, f, id))
    && (forall sink | a.Reads(sink).Some? :: b.Reads(NowSink(f, sink)) == Some(NowSource(f, a.Reads(sink).value)))
  }

  ghost predicate Stood(a: Wiring, f: Moves, id: NodeId) {
    exists x :: a.Live(x) && Now(f, x) == id
  }

  lemma RenamedToItself(w: Wiring)
    ensures Renamed(w, w, map[])
  {
    forall id | w.Live(id) ensures Stood(w, map[], id) {
      assert Now(map[], id) == id;
    }
  }

  lemma LikeKindShapes(a: Kind, b: Kind)
    requires LikeKind(a, b)
    ensures a.Effect() == b.Effect()
  {
  }

  /** Every sink of the renamed graph is one of the original's. */
  lemma SinkStood(a: Wiring, b: Wiring, f: Moves, sink: Sink) returns (s: Sink)
    requires a.Sound() && b.Sound() && Renamed(a, b, f) && b.Reads(sink).Some?
    ensures a.Reads(s).Some? && NowSink(f, s) == sink
  {
    match sink
    case Output(_) => s := sink;
    case Slot(node, port) =>
      assert Stood(a, f, node);
      var x :| a.Live(x) && Now(f, x) == node;
      LikeKindShapes(a.At(x).kind, b.At(node).kind);
      s := Slot(x, port);
  }

  lemma SinksApart(a: Wiring, b: Wiring, f: Moves, s: Sink, t: Sink)
    requires Renamed(a, b, f) && a.Reads(s).Some? && a.Reads(t).Some? && NowSink(f, s) == NowSink(f, t)
    ensures s == t
  {
  }

  lemma SourcesApart(a: Wiring, b: Wiring, f: Moves, s: Source, t: Source)
    requires Renamed(a, b, f) && a.Has(s) && a.Has(t) && NowSource(f, s) == NowSource(f, t)
    ensures s == t
  {
  }

  /** A graph under new names has its boxes in the same order. */
  lemma RenamedWhole(a: Wiring, b: Wiring, f: Moves)
    requires a.Whole() && b.Sound() && Renamed(a, b, f)
    ensures b.Whole()
  {
    var rank: seq<nat> :| a.Ranked(rank);
    var ranks := seq(|b.boxes|, (id: nat) requires id < |b.boxes| => RankNow(a, b, f, rank, id));
    forall id: NodeId, port: nat | b.Live(id) && port < |b.At(id).inputs|
      ensures ReadsBelow(ranks, b.At(id).inputs[port], ranks[id])
    {
      assert b.Reads(Slot(id, port)) == Some(b.At(id).inputs[port]);
      var s := SinkStood(a, b, f, Slot(id, port));
      RankStood(a, b, f, rank, s.node);
      assert ReadsBelow(rank, a.At(s.node).inputs[s.port], rank[s.node]);
      if a.Reads(s).value.Port? {
        assert a.Has(a.Reads(s).value);
        RankStood(a, b, f, rank, a.Reads(s).value.node);
      }
    }
    assert b.Ranked(ranks);
  }

  ghost function RankNow(a: Wiring, b: Wiring, f: Moves, rank: seq<nat>, id: NodeId): nat
    requires a.Ranked(rank) && Renamed(a, b, f)
  {
    if b.Live(id) then
      assert Stood(a, f, id);
      var x: nat :| a.Live(x) && Now(f, x) == id;
      rank[x]
    else 0
  }

  lemma RankStood(a: Wiring, b: Wiring, f: Moves, rank: seq<nat>, x: NodeId)
    requires a.Ranked(rank) && Renamed(a, b, f) && a.Live(x)
    ensures b.Live(Now(f, x)) && RankNow(a, b, f, rank, Now(f, x)) == rank[x]
  {
    assert Stood(a, f, Now(f, x));
  }

  // ---- reader lists without repeats ----

  lemma {:induction false} DistinctCounts(s: seq<Sink>)
    ensures Distinct(s) <==> forall x :: multiset(s)[x] <= 1
  {
    if s != [] {
      var last := |s| - 1;
      DistinctCounts(s[..last]);
      assert s == s[..last] + [s[last]];
      if Distinct(s) {
        assert s[last] !in s[..last];
      } else if Distinct(s[..last]) {
        var i, j :| 0 <= i < j < |s| && s[i] == s[j];
        assert j == last && s[last] in s[..last];
        assert multiset(s)[s[last]] >= 2;
      } else {
        var x :| multiset(s[..last])[x] > 1;
        assert multiset(s)[x] > 1;
      }
    }
  }

  /** A port fully accounted for: no reader twice, and exactly its readers. */
  lemma FullMeans(w: Wiring, m: Match, readers: seq<Sink>, src: Source)
    ensures Full(w, m, readers, src)
      <==> Distinct(Want(m, readers)) && forall sink :: sink in Want(m, readers) <==> w.Reads(sink) == Some(src)
  {
    var want := Want(m, readers);
    DistinctCounts(want);
    assert forall sink :: sink in want <==> multiset(want)[sink] > 0;
  }

  /** The sinks a match hands out, each handed out once. */
  ghost predicate Apart(m: Match) {
    && (forall j | 0 <= j < |m.outputs| :: Distinct(m.outputs[j]))
    && (forall i, j, sink | 0 <= i < j < |m.outputs| && sink in m.outputs[i] :: sink !in m.outputs[j])
  }

  lemma {:induction false} WantContains(m: Match, readers: seq<Sink>, r: Sink)
    requires r in readers
    ensures multiset(ServedFor(m, r)) <= multiset(Want(m, readers))
  {
    if readers[0] != r {
      WantContains(m, readers[1..], r);
    }
  }

  /** A pattern that exports no port twice leaves no choice about who gets which reader. */
  lemma PinnedIsApart(w: Wiring, p: Wiring, m: Match)
    requires Embeds(w, p, m) && p.Sound() && Distinct(p.outputs)
    requires forall j | 0 <= j < |p.outputs| :: p.outputs[j].Port?
    ensures Apart(m)
  {
    forall j: nat | j < |m.outputs| ensures Distinct(m.outputs[j]) {
      OutputsHeld(p, j);
      var k, port := p.outputs[j].node, p.outputs[j].port;
      assert BoxFits(w, p, m, k);
      var readers := Readers(p, Port(k, port));
      assert Full(w, m, readers, Port(m.nodes[k], port));
      ReadersHas(p, Port(k, port), Output(j));
      WantContains(m, readers, Output(j));
      DistinctCounts(m.outputs[j]);
      forall x ensures multiset(m.outputs[j])[x] <= 1 {
        assert multiset(Want(m, readers))[x] <= 1;
      }
    }
    forall i: nat, j: nat, sink | i < j < |m.outputs| && sink in m.outputs[i] ensures sink !in m.outputs[j] {
      assert Serves(w, p, m, i) && Serves(w, p, m, j);
      OutputsHeld(p, i);
      OutputsHeld(p, j);
      assert p.outputs[i] != p.outputs[j];
      assert Image(m, p.outputs[i]) != Image(m, p.outputs[j]);
    }
  }

  lemma LeftOutputsDistinct(rule: Rule)
    requires Sides(rule).Some?
    ensures var l := Sides(rule).value.0; Distinct(l.outputs) && forall j | 0 <= j < |l.outputs| :: l.outputs[j].Port?
  {
  }

  lemma DistinctJoin(a: seq<Sink>, b: seq<Sink>)
    requires Distinct(a) && Distinct(b) && forall x | x in b :: x !in a
    ensures Distinct(a + b)
  {
    forall i, j | 0 <= i < j < |a + b| ensures (a + b)[i] != (a + b)[j] {
      assert j >= |a| ==> (a + b)[j] in b;
    }
  }

  /** Lists that meet nowhere, one after the other, repeat nothing. */
  lemma {:induction false} WantDistinct(m: Match, readers: seq<Sink>)
    requires Distinct(readers)
    requires forall r | r in readers :: Distinct(ServedFor(m, r))
    requires forall r, t, x | r in readers && t in readers && r != t && x in ServedFor(m, r) :: x !in ServedFor(m, t)
    ensures Distinct(Want(m, readers))
  {
    if readers != [] {
      WantDistinct(m, readers[1..]);
      forall x | x in Want(m, readers[1..]) ensures x !in ServedFor(m, readers[0]) {
        WantHas(m, readers[1..], x);
      }
      DistinctJoin(ServedFor(m, readers[0]), Want(m, readers[1..]));
    }
  }

  lemma {:induction false} PortReadersDistinct(w: Wiring, src: Source, id: NodeId, n: nat)
    requires w.Live(id) && n <= |w.At(id).inputs|
    ensures Distinct(PortReaders(w, src, id, n))
  {
    if n > 0 {
      PortReadersDistinct(w, src, id, n - 1);
      PortReadersHas(w, src, id, n - 1, Slot(id, n - 1));
    }
  }

  lemma {:induction false} BoxReadersDistinct(w: Wiring, src: Source, n: nat)
    requires n <= |w.boxes|
    ensures Distinct(BoxReaders(w, src, n))
  {
    if n > 0 {
      BoxReadersDistinct(w, src, n - 1);
      if w.Live(n - 1) {
        var a, b := BoxReaders(w, src, n - 1), PortReaders(w, src, n - 1, |w.At(n - 1).inputs|);
        PortReadersDistinct(w, src, n - 1, |w.At(n - 1).inputs|);
        forall x | x in b ensures x !in a {
          PortReadersHas(w, src, n - 1, |w.At(n - 1).inputs|, x);
          BoxReadersHas(w, src, n - 1, x);
        }
        DistinctJoin(a, b);
      }
    }
  }

  lemma {:induction false} OutputReadersDistinct(w: Wiring, src: Source, n: nat)
    requires n <= |w.outputs|
    ensures Distinct(OutputReaders(w, src, n))
  {
    if n > 0 {
      OutputReadersDistinct(w, src, n - 1);
      OutputReadersHas(w, src, n - 1, Output(n - 1));
    }
  }

  lemma ReadersDistinct(w: Wiring, src: Source)
    ensures Distinct(Readers(w, src))
  {
    var a, b := BoxReaders(w, src, |w.boxes|), OutputReaders(w, src, |w.outputs|);
    BoxReadersDistinct(w, src, |w.boxes|);
    OutputReadersDistinct(w, src, |w.outputs|);
    forall x | x in b ensures x !in a {
      OutputReadersHas(w, src, |w.outputs|, x);
      BoxReadersHas(w, src, |w.boxes|, x);
    }
    DistinctJoin(a, b);
  }
}
