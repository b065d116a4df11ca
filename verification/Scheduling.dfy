/** A topological order of the live boxes, by counting the ports each still waits for. */
module Scheduling {
  import opened Wrappers
  import opened Terms
  import opened Wirings
  import opened Splices
  import opened Graphs
  import opened Renamings

  /** A port of a box still waiting for its producer: not run, and this reader not yet told. */
  ghost predicate Blocked(w: Wiring, done: set<NodeId>, told: set<Sink>, id: NodeId, k: nat) {
    && w.Live(id) && k < |w.At(id).inputs| && w.At(id).inputs[k].Port?
    && w.At(id).inputs[k].node !in done && Slot(id, k) !in told
  }

  ghost function Unmet(w: Wiring, done: set<NodeId>, told: set<Sink>, id: NodeId): set<nat>
    requires w.Live(id)
  {
    set k: nat | k < |w.At(id).inputs| && Blocked(w, done, told, id, k)
  }

  function Members(s: seq<NodeId>): set<NodeId> {
    set x | x in s
  }

  /** Each box after everything it reads. */
  ghost predicate InTurn(w: Wiring, order: seq<NodeId>) {
    forall k | 0 <= k < |order| :: w.Live(order[k]) && ReadyAfter(w, order[..k], order[k])
  }

  ghost predicate ReadyAfter(w: Wiring, before: seq<NodeId>, id: NodeId)
    requires w.Live(id)
  {
    forall k | 0 <= k < |w.At(id).inputs| && w.At(id).inputs[k].Port? :: w.At(id).inputs[k].node in before
  }

  /** Every live box, once, and in turn. */
  ghost predicate Schedules(w: Wiring, order: seq<NodeId>) {
    && Distinct(order) && InTurn(w, order)
    && forall id: NodeId :: id in order <==> w.Live(id)
  }

  /** At every turn, no box that could have run instead has a smaller id. */
  ghost predicate SmallestFirst(w: Wiring, order: seq<NodeId>) {
    forall k: nat, x: NodeId | k < |order| && w.Live(x) && x !in order[..k] && ReadyAfter(w, order[..k], x) ::
      order[k] <= x
  }

  lemma NothingUnmet(w: Wiring, before: seq<NodeId>, id: NodeId)
    requires w.Live(id)
    ensures Unmet(w, Members(before), {}, id) == {} <==> ReadyAfter(w, before, id)
  {
    var unmet := Unmet(w, Members(before), {}, id);
    assert forall k: nat :: k in unmet <==> Blocked(w, Members(before), {}, id, k);
    if unmet == {} {
      forall k: nat | k < |w.At(id).inputs| && w.At(id).inputs[k].Port? ensures w.At(id).inputs[k].node in before {
        assert !Blocked(w, Members(before), {}, id, k);
      }
    } else {
      var k :| k in unmet;
    }
  }

  /** How many ports of a box read another box. */
  method CountPorts(graph: Graph, id: NodeId) returns (n: nat)
    requires graph.W().Live(id)
    ensures n == |Unmet(graph.W(), {}, {}, id)|
  {
    var sources := graph.nodes[id].value.inputs;
    ghost var w := graph.W();
    assert w.At(id).inputs == sources;
    n := 0;
    ghost var counted: set<nat> := {};
    for k: nat := 0 to |sources|
      invariant n == |counted| && forall q: nat :: q in counted <==> q < k && Blocked(w, {}, {}, id, q)
    {
      if sources[k].Port? {
        counted := counted + {k};
        n := n + 1;
      }
    }
    assert counted == Unmet(w, {}, {}, id);
  }

  /** The smallest of some ids. */
  method Least(ids: set<NodeId>) returns (least: NodeId)
    requires ids != {}
    ensures least in ids && forall x | x in ids :: least <= x
  {
    least :| least in ids;
    var left := ids - {least};
    while left != {}
      invariant least in ids && left <= ids && forall x | x in ids && x !in left :: least <= x
      decreases |left|
    {
      var x :| x in left;
      if x < least {
        least := x;
      }
      left := left - {x};
    }
  }

  /** How things stand while `id` tells its readers: `done` boxes before it, `told` readers so far. */
  ghost predicate Telling(
    w: Wiring, waiting: map<NodeId, nat>, ready: set<NodeId>, done: set<NodeId>, also: set<NodeId>, told: set<Sink>)
  {
    && (forall x: NodeId :: x in waiting <==> w.Live(x))
    && (forall x | w.Live(x) :: waiting[x] == |Unmet(w, done, told, x)|)
    && (forall x: NodeId :: x in ready <==> w.Live(x) && x !in done + also && Unmet(w, done, told, x) == {})
  }

  /** One more reader told: it waits for one port fewer. */
  lemma ToldOne(w: Wiring, done: set<NodeId>, told: set<Sink>, sink: Sink)
    requires w.Reads(sink).Some? && sink.Slot? && w.Reads(sink).value.Port? && w.Reads(sink).value.node !in done
    requires sink !in told
    ensures forall x | w.Live(x) && x != sink.node :: Unmet(w, done, told + {sink}, x) == Unmet(w, done, told, x)
    ensures sink.port in Unmet(w, done, told, sink.node)
    ensures Unmet(w, done, told + {sink}, sink.node) == Unmet(w, done, told, sink.node) - {sink.port}
    ensures |Unmet(w, done, told + {sink}, sink.node)| == |Unmet(w, done, told, sink.node)| - 1
  {
    assert Blocked(w, done, told, sink.node, sink.port);
    forall x | w.Live(x) && x != sink.node ensures Unmet(w, done, told + {sink}, x) == Unmet(w, done, told, x) {
      forall k: nat ensures Blocked(w, done, told + {sink}, x, k) == Blocked(w, done, told, x, k) {
      }
    }
    forall k: nat ensures Blocked(w, done, told + {sink}, sink.node, k)
      == (Blocked(w, done, told, sink.node, k) && k != sink.port) {
    }
  }

  /** Everyone told, the box counts as run. */
  lemma ToldAll(w: Wiring, done: set<NodeId>, told: set<Sink>, id: NodeId, x: NodeId)
    requires w.Live(x)
    requires forall k: nat | k < |w.At(x).inputs| && w.At(x).inputs[k].Port? && w.At(x).inputs[k].node == id ::
      Slot(x, k) in told
    requires forall sink: Sink | sink in told ::
      w.Reads(sink).Some? && w.Reads(sink).value.Port? && w.Reads(sink).value.node == id
    ensures Unmet(w, done, told, x) == Unmet(w, done + {id}, {}, x)
  {
    forall k: nat ensures Blocked(w, done, told, x, k) == Blocked(w, done + {id}, {}, x, k) {
      if Slot(x, k) in told {
        assert w.Reads(Slot(x, k)).Some?;
      }
    }
  }

  lemma InTurnReads(w: Wiring, order: seq<NodeId>, x: NodeId, port: nat)
    requires InTurn(w, order) && x in order && w.Live(x) && port < |w.At(x).inputs| && w.At(x).inputs[port].Port?
    ensures w.At(x).inputs[port].node in order
  {
    var k :| 0 <= k < |order| && order[k] == x;
    assert ReadyAfter(w, order[..k], order[k]);
  }

  /** A box that reads another has not run before it. */
  lemma ReadersComeLater(w: Wiring, order: seq<NodeId>, id: NodeId, sink: Sink)
    requires w.Whole() && InTurn(w, order) && id !in order && ToldBy(w, sink, id)
    ensures sink.node !in order && sink.node != id
  {
    assert ReadsBelow(RankOf(w), w.At(sink.node).inputs[sink.port], RankOf(w)[sink.node]);
    if sink.node in order {
      InTurnReads(w, order, sink.node, sink.port);
    }
  }

  /** One reader told. */
  method Tell(
    waiting0: map<NodeId, nat>, ready0: set<NodeId>, sink: Sink,
    ghost w: Wiring, ghost id: NodeId, ghost order: seq<NodeId>, ghost told: set<Sink>)
    returns (waiting: map<NodeId, nat>, ready: set<NodeId>)
    requires w.Whole() && InTurn(w, order) && id !in order && ToldBy(w, sink, id) && sink !in told
    requires Telling(w, waiting0, ready0, Members(order), {id}, told)
    ensures Telling(w, waiting, ready, Members(order), {id}, told + {sink})
  {
    ReadersComeLater(w, order, id, sink);
    ToldOne(w, Members(order), told, sink);
    hide Unmet; hide Blocked; hide Wiring.Whole; hide InTurn;
    waiting, ready := waiting0, ready0;
    waiting := waiting[sink.node := waiting[sink.node] - 1];
    if waiting[sink.node] == 0 {
      ready := ready + {sink.node};
    }
  }

  /** The readers of a box's first ports, and nobody else. */
  ghost predicate ToldTo(w: Wiring, told: set<Sink>, id: NodeId, port: nat) {
    forall sink: Sink :: sink in told <==> ToldBy(w, sink, id) && w.Reads(sink).value.port < port
  }

  /** Those told before, and the readers among the first `t` of a port's list. */
  ghost predicate ToldPart(told: set<Sink>, before: set<Sink>, sinks: seq<Sink>, t: int) {
    0 <= t <= |sinks| && forall sink: Sink :: sink in told <==> sink in before || (sink.Slot? && sink in sinks[..t])
  }

  lemma OneMorePort(w: Wiring, before: set<Sink>, told: set<Sink>, id: NodeId, port: nat, sinks: seq<Sink>)
    requires ToldTo(w, before, id, port) && ToldPart(told, before, sinks, |sinks|)
    requires forall sink: Sink :: sink in sinks <==> w.Reads(sink) == Some(Port(id, port))
    ensures ToldTo(w, told, id, port + 1)
  {
    assert sinks[..|sinks|] == sinks;
  }

  lemma NextUntold(w: Wiring, before: set<Sink>, told: set<Sink>, id: NodeId, port: nat, sinks: seq<Sink>, t: int)
    requires 0 <= t < |sinks| && ToldTo(w, before, id, port) && ToldPart(told, before, sinks, t) && Distinct(sinks)
    requires w.Reads(sinks[t]) == Some(Port(id, port))
    ensures sinks[t].Slot? ==> ToldBy(w, sinks[t], id) && sinks[t] !in told
    ensures ToldPart(if sinks[t].Slot? then told + {sinks[t]} else told, before, sinks, t + 1)
  {
    assert sinks[..t + 1] == sinks[..t] + [sinks[t]];
  }

  /** One box tells the readers of one of its ports. */
  method TellPort(
    graph: Graph, waiting0: map<NodeId, nat>, ready0: set<NodeId>, id: NodeId, port: nat,
    ghost order: seq<NodeId>, ghost told0: set<Sink>)
    returns (waiting: map<NodeId, nat>, ready: set<NodeId>, ghost told: set<Sink>)
    requires graph.S().Linked() && graph.W().Whole() && graph.W().Has(Port(id, port))
    requires InTurn(graph.W(), order) && id !in order
    requires Telling(graph.W(), waiting0, ready0, Members(order), {id}, told0) && ToldTo(graph.W(), told0, id, port)
    ensures Telling(graph.W(), waiting, ready, Members(order), {id}, told) && ToldTo(graph.W(), told, id, port + 1)
  {
    waiting, ready, told := waiting0, ready0, told0;
    var sinks := graph.S().Sinks(Port(id, port));
    ghost var w := graph.W();
    SinksOnce(graph, Port(id, port));
    assert ToldPart(told, told0, sinks, 0);
    assert forall t | 0 <= t < |sinks| :: w.Reads(sinks[t]) == Some(Port(id, port));
    hide Telling; hide Store.Linked; hide InTurn; hide Wiring.Whole; hide ToldTo; hide ToldBy; hide Store.Sinks;
    hide Store.Wiring;
    hide ToldPart; hide Wiring.Reads; hide Members; hide Distinct;
    for t := 0 to |sinks|
      invariant Telling(w, waiting, ready, Members(order), {id}, told)
      invariant ToldPart(told, told0, sinks, t)
    {
      NextUntold(w, told0, told, id, port, sinks, t);
      if sinks[t].Slot? {
        waiting, ready := Tell(waiting, ready, sinks[t], w, id, order, told);
        told := told + {sinks[t]};
      }
    }
    OneMorePort(w, told0, told, id, port, sinks);
  }

  ghost predicate ToldBy(w: Wiring, sink: Sink, id: NodeId) {
    sink.Slot? && w.Reads(sink).Some? && w.Reads(sink).value.Port? && w.Reads(sink).value.node == id
  }

  /** A linked graph lists each reader of a port once, and nobody else. */
  lemma SinksOnce(graph: Graph, src: Source)
    requires graph.S().Linked() && graph.W().Has(src)
    ensures Distinct(graph.S().Sinks(src))
    ensures forall sink :: sink in graph.S().Sinks(src) <==> graph.W().Reads(sink) == Some(src)
  {
    var sinks := graph.S().Sinks(src);
    forall sink ensures multiset(sinks)[sink] == if graph.W().Reads(sink) == Some(src) then 1 else 0 {
      assert graph.S().Listed(src, sink, iset{});
    }
    DistinctCounts(sinks);
    assert forall sink :: sink in sinks <==> multiset(sinks)[sink] > 0;
  }

  /** A box runs: it joins the order, and tells the readers of every port. */
  method RunBox(
    graph: Graph, waiting0: map<NodeId, nat>, ready0: set<NodeId>, id: NodeId, ghost order: seq<NodeId>)
    returns (waiting: map<NodeId, nat>, ready: set<NodeId>)
    requires graph.S().Linked() && graph.W().Whole() && InTurn(graph.W(), order) && id in ready0
    requires Telling(graph.W(), waiting0, ready0, Members(order), {}, {})
    ensures InTurn(graph.W(), order + [id]) && id !in order && graph.W().Live(id)
    ensures Telling(graph.W(), waiting, ready, Members(order + [id]), {}, {})
  {
    ghost var w := graph.W();
    ReadyGoesNext(w, waiting0, ready0, id, order);
    hide Telling; hide Store.Linked; hide InTurn; hide Wiring.Whole; hide Members; hide Unmet;
    waiting, ready := waiting0, ready0 - {id};
    ghost var told: set<Sink> := {};
    var n := graph.nodes[id].value.kind.Effect().outputs;
    assert n == w.At(id).kind.Effect().outputs;
    assert ToldTo(w, told, id, 0);
    hide Telling; hide Store.Linked; hide InTurn; hide Wiring.Whole; hide ToldTo; hide Members; hide Store.Wiring;
    hide Unmet;
    for port := 0 to n
      invariant Telling(w, waiting, ready, Members(order), {id}, told) && ToldTo(w, told, id, port)
    {
      waiting, ready, told := TellPort(graph, waiting, ready, id, port, order, told);
    }
    AllTold(w, waiting, ready, id, order, told);
  }

  lemma ReadyGoesNext(w: Wiring, waiting: map<NodeId, nat>, ready: set<NodeId>, id: NodeId, order: seq<NodeId>)
    requires InTurn(w, order) && id in ready && Telling(w, waiting, ready, Members(order), {}, {})
    ensures w.Live(id) && id !in order && InTurn(w, order + [id])
    ensures Telling(w, waiting, ready - {id}, Members(order), {id}, {})
  {
    NothingUnmet(w, order, id);
    var next := order + [id];
    forall k | 0 <= k < |next| ensures w.Live(next[k]) && ReadyAfter(w, next[..k], next[k]) {
      assert next[..k] == order[..k];
      if k == |order| {
        assert order[..k] == order;
      }
    }
  }

  lemma AllTold(
    w: Wiring, waiting: map<NodeId, nat>, ready: set<NodeId>, id: NodeId, order: seq<NodeId>, told: set<Sink>)
    requires w.Whole() && w.Live(id) && Telling(w, waiting, ready, Members(order), {id}, told)
    requires ToldTo(w, told, id, w.At(id).kind.Effect().outputs)
    ensures Telling(w, waiting, ready, Members(order + [id]), {}, {})
  {
    assert Members(order + [id]) == Members(order) + {id};
    forall x: NodeId | w.Live(x) ensures Unmet(w, Members(order), told, x) == Unmet(w, Members(order) + {id}, {}, x) {
      forall k: nat | k < |w.At(x).inputs| && w.At(x).inputs[k].Port? && w.At(x).inputs[k].node == id
        ensures Slot(x, k) in told
      {
        assert w.Reads(Slot(x, k)) == Some(w.At(x).inputs[k]) && w.Has(w.At(x).inputs[k]);
        assert ToldBy(w, Slot(x, k), id);
      }
      ToldAll(w, Members(order), told, id, x);
    }
  }

  /** Where nothing is ready any more, everything has run. */
  lemma {:induction false} AllRun(
    w: Wiring, waiting: map<NodeId, nat>, order: seq<NodeId>, rank: seq<nat>, id: NodeId)
    requires w.Sound() && w.Ranked(rank) && w.Live(id) && Telling(w, waiting, {}, Members(order), {}, {})
    ensures id in order
    decreases rank[id]
  {
    forall k: nat | k < |w.At(id).inputs| && w.At(id).inputs[k].Port? ensures w.At(id).inputs[k].node in order {
      Readable(w, id);
      assert ReadsBelow(rank, w.At(id).inputs[k], rank[id]);
      AllRun(w, waiting, order, rank, w.At(id).inputs[k].node);
    }
    NothingUnmet(w, order, id);
  }

  lemma DistinctNext(w: Wiring, order: seq<NodeId>, id: NodeId)
    requires Distinct(order) && id !in order
    ensures Distinct(order + [id])
  {
  }

  lemma OrderFits(w: Wiring, order: seq<NodeId>)
    requires Distinct(order) && InTurn(w, order)
    ensures |order| <= |w.boxes|
  {
    DistinctMembers(order);
    BoundedSet(Members(order), |w.boxes|);
  }

  lemma {:induction false} DistinctMembers(s: seq<NodeId>)
    requires Distinct(s)
    ensures |Members(s)| == |s|
  {
    if s != [] {
      var last := s[|s| - 1];
      var rest := s[..|s| - 1];
      DistinctMembers(rest);
      assert s == rest + [last];
      assert last !in Members(rest);
      assert Members(s) == Members(rest) + {last};
    }
  }

  /** The live boxes, producers first, the smallest id first among those ready. */
  method Schedule(graph: Graph) returns (order: seq<NodeId>)
    requires graph.S().Linked() && graph.W().Whole()
    ensures Schedules(graph.W(), order) && SmallestFirst(graph.W(), order)
  {
    var waiting, ready := Start(graph);
    ghost var w := graph.W();
    order := [];
    assert Members([]) == {} && InTurn(w, []) && Distinct(order) && SmallestFirst(w, []);
    hide Telling; hide Store.Linked; hide Wiring.Whole; hide InTurn; hide Members; hide Distinct; hide SmallestFirst;
    while ready != {}
      invariant Telling(w, waiting, ready, Members(order), {}, {})
      invariant InTurn(w, order) && Distinct(order) && SmallestFirst(w, order)
      decreases |w.boxes| - |order|
    {
      var id := Least(ready);
      SmallestNext(w, waiting, ready, order, id);
      waiting, ready := RunBox(graph, waiting, ready, id, order);
      DistinctNext(w, order, id);
      order := order + [id];
      OrderFits(w, order);
    }
    Complete(w, waiting, order);
  }

  lemma SmallestNext(w: Wiring, waiting: map<NodeId, nat>, ready: set<NodeId>, order: seq<NodeId>, id: NodeId)
    requires Telling(w, waiting, ready, Members(order), {}, {}) && SmallestFirst(w, order)
    requires forall x | x in ready :: id <= x
    ensures SmallestFirst(w, order + [id])
  {
    hide Unmet; hide ReadyAfter;
    var more := order + [id];
    forall k: nat, x: NodeId | k < |more| && w.Live(x) && x !in more[..k] && ReadyAfter(w, more[..k], x)
      ensures more[k] <= x
    {
      if k < |order| {
        assert more[..k] == order[..k];
      } else {
        assert more[..k] == order;
        NothingUnmet(w, order, x);
      }
    }
  }

  lemma Complete(w: Wiring, waiting: map<NodeId, nat>, order: seq<NodeId>)
    requires w.Whole() && InTurn(w, order) && Telling(w, waiting, {}, Members(order), {}, {})
    ensures forall id: NodeId :: id in order <==> w.Live(id)
  {
    forall id: NodeId ensures id in order <==> w.Live(id) {
      if w.Live(id) {
        AllRun(w, waiting, order, RankOf(w), id);
      }
      if id in order {
        var k :| 0 <= k < |order| && order[k] == id;
        assert w.Live(order[k]);
      }
    }
  }

  /** Every live box with the ports it waits for, and those that wait for none. */
  method Start(graph: Graph) returns (waiting: map<NodeId, nat>, ready: set<NodeId>)
    ensures Telling(graph.W(), waiting, ready, {}, {}, {})
  {
    waiting, ready := map[], {};
    for id: nat := 0 to |graph.nodes|
      invariant forall x: NodeId :: x in waiting <==> x < id && graph.W().Live(x)
      invariant forall x: NodeId | x < id && graph.W().Live(x) :: waiting[x] == |Unmet(graph.W(), {}, {}, x)|
      invariant forall x: NodeId :: x in ready <==> x < id && graph.W().Live(x) && Unmet(graph.W(), {}, {}, x) == {}
    {
      if graph.nodes[id].Some? {
        var n := CountPorts(graph, id);
        waiting := waiting[id := n];
        if n == 0 {
          ready := ready + {id};
        }
      }
    }
  }
}
