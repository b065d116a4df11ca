/** Finding an embedding: a backtracking search that holds every answer to the check, and misses none. */
module Searches {
  import opened Wrappers
  import opened Wirings
  import opened Splices
  import opened Graphs
  import opened Steps
  import opened Renamings

  /** What one assignment bound, so that it can be taken back. */
  datatype Bound = Bound(inputs: seq<nat>, branch: Option<nat>)

  /** What a search has placed and bound so far. */
  datatype Trail = Trail(
    nodes: seq<Option<NodeId>>, inputs: seq<Option<Source>>, branches: seq<Option<BranchId>>, used: set<NodeId>)
  {
    /** One assignment taken back. */
    function Without(i: nat, host: NodeId, bound: Bound): Trail
      requires i < |nodes|
    {
      Trail(nodes[i := None], Cleared(inputs, bound.inputs),
        if bound.branch.Some? then Cleared(branches, [bound.branch.value]) else branches, used - {host})
    }
  }

  function Cleared<T>(s: seq<Option<T>>, at: seq<nat>): (r: seq<Option<T>>)
    ensures |r| == |s| && forall k: nat | k < |s| :: r[k] == if k in at then None else s[k]
  {
    seq(|s|, (k: nat) requires k < |s| => if k in at then None else s[k])
  }

  /** The branch a box is an end of. */
  function BranchOf(kind: Kind): Option<BranchId> {
    match EndOf(kind) case Some(end) => Some(end.0) case None => None
  }

  /** There is a box to start from, and all outputs are ports, each once. */
  ghost predicate Anchored(p: Wiring) {
    |p.boxes| > 0 && Distinct(p.outputs) && forall j | 0 <= j < |p.outputs| :: p.outputs[j].Port?
  }

  /** Anchored, and boxes read every input and name every branch: where they go says the rest. */
  ghost predicate Pins(p: Wiring) {
    && Anchored(p)
    && (forall i: nat | i < p.inputs :: ReadByABox(p, i))
    && (forall b: nat | b < p.branches :: BranchNamed(p, b))
  }

  ghost predicate ReadByABox(p: Wiring, i: nat) {
    exists k: NodeId :: p.Live(k) && Input(i) in p.At(k).inputs
  }

  ghost predicate BranchNamed(p: Wiring, b: BranchId) {
    exists k: NodeId :: p.Live(k) && BranchOf(p.At(k).kind) == Some(b)
  }

  /** The same embedding, but for the order in which readers are listed. */
  ghost predicate SameMatch(a: Match, b: Match) {
    && a.nodes == b.nodes && a.inputs == b.inputs && a.branches == b.branches && |a.outputs| == |b.outputs|
    && forall j | 0 <= j < |a.outputs| :: multiset(a.outputs[j]) == multiset(b.outputs[j])
  }

  /** A trail on the way to an embedding: the first `i` boxes placed as it places them, and what they name bound. */
  ghost predicate Toward(t: Trail, p: Wiring, m: Match, i: nat)
    requires Dense(p)
  {
    && |t.nodes| == |m.nodes| == |p.boxes| && |t.inputs| == |m.inputs| == p.inputs
    && |t.branches| == |m.branches| == p.branches && i <= |m.nodes|
    && (forall k: nat | k < |t.nodes| :: t.nodes[k] == if k < i then Some(m.nodes[k]) else None)
    && (forall x :: x in t.used <==> x in m.nodes[..i])
    && (forall l: nat | l < |t.inputs| && t.inputs[l].Some? :: t.inputs[l] == Some(m.inputs[l]))
    && (forall b: nat | b < |t.branches| && t.branches[b].Some? :: t.branches[b] == Some(m.branches[b]))
    && (forall k: nat | k < i :: InputsBound(t, p.At(k), |p.At(k).inputs|))
    && (forall k: nat | k < i :: BranchBound(t, p.At(k).kind))
  }

  ghost predicate InputsBound(t: Trail, box: Box, n: nat)
    requires n <= |box.inputs|
  {
    forall q: nat | q < n && box.inputs[q].Input? && box.inputs[q].i < |t.inputs| :: t.inputs[box.inputs[q].i].Some?
  }

  ghost predicate BranchBound(t: Trail, kind: Kind) {
    BranchOf(kind).Some? && BranchOf(kind).value < |t.branches| ==> t.branches[BranchOf(kind).value].Some?
  }

  // ---- who reads a port from outside ----

  /** The readers inside the match, and the ones outside it. */
  function WantInside(m: Match, readers: seq<Sink>): seq<Sink> {
    if readers == [] then []
    else (if readers[0].Slot? then ServedFor(m, readers[0]) else []) + WantInside(m, readers[1..])
  }

  function WantOutside(m: Match, readers: seq<Sink>): seq<Sink> {
    if readers == [] then []
    else (if readers[0].Output? then ServedFor(m, readers[0]) else []) + WantOutside(m, readers[1..])
  }

  lemma {:induction false} WantParts(m: Match, readers: seq<Sink>)
    ensures multiset(Want(m, readers)) == multiset(WantInside(m, readers)) + multiset(WantOutside(m, readers))
  {
    if readers != [] {
      WantParts(m, readers[1..]);
    }
  }

  lemma {:induction false} WantOutsideJoin(m: Match, a: seq<Sink>, b: seq<Sink>)
    ensures WantOutside(m, a + b) == WantOutside(m, a) + WantOutside(m, b)
  {
    if a == [] {
      assert a + b == b;
    } else {
      assert (a + b)[1..] == a[1..] + b;
      WantOutsideJoin(m, a[1..], b);
    }
  }

  lemma {:induction false} NoneOutside(m: Match, readers: seq<Sink>)
    requires forall r | r in readers :: r.Slot?
    ensures WantOutside(m, readers) == []
  {
    if readers != [] {
      assert readers[0] in readers;
      NoneOutside(m, readers[1..]);
    }
  }

  lemma {:induction false} OneOutput(p: Wiring, m: Match, src: Source, n: nat, j: nat)
    requires n <= |p.outputs| && j < |p.outputs| && p.outputs[j] == src && Distinct(p.outputs)
    requires |m.outputs| == |p.outputs|
    ensures WantOutside(m, OutputReaders(p, src, n)) == if j < n then m.outputs[j] else []
  {
    if n > 0 {
      OneOutput(p, m, src, n - 1, j);
      var before := OutputReaders(p, src, n - 1);
      hide WantOutside;
      if p.outputs[n - 1] == src {
        WantOutsideJoin(m, before, [Output(n - 1)]);
        LoneOutput(m, n - 1);
      } else {
        assert before + [] == before;
      }
    } else {
      assert WantOutside(m, []) == [];
    }
  }

  lemma LoneOutput(m: Match, j: nat)
    requires j < |m.outputs|
    ensures WantOutside(m, [Output(j)]) == m.outputs[j]
  {
    assert WantOutside(m, [Output(j)]) == m.outputs[j] + WantOutside(m, []);
  }

  /** Of a port exported once, the outside readers are the ones handed to the output that names it. */
  lemma OutsideIsOutput(p: Wiring, m: Match, j: nat)
    requires j < |p.outputs| && Distinct(p.outputs) && |m.outputs| == |p.outputs|
    ensures WantOutside(m, Readers(p, p.outputs[j])) == m.outputs[j]
  {
    var src := p.outputs[j];
    var boxes := BoxReaders(p, src, |p.boxes|);
    forall r | r in boxes ensures r.Slot? {
      BoxReadersHas(p, src, |p.boxes|, r);
    }
    NoneOutside(m, boxes);
    OneOutput(p, m, src, |p.outputs|, j);
    WantOutsideJoin(m, boxes, OutputReaders(p, src, |p.outputs|));
  }

  lemma {:induction false} WantSame(a: Match, b: Match, readers: seq<Sink>)
    requires SameMatch(a, b)
    ensures multiset(Want(a, readers)) == multiset(Want(b, readers))
  {
    if readers != [] {
      WantSame(a, b, readers[1..]);
      assert multiset(ServedFor(a, readers[0])) == multiset(ServedFor(b, readers[0]));
    }
  }

  /** Listing readers in another order is the same embedding. */
  lemma SameMatchEmbeds(w: Wiring, p: Wiring, a: Match, b: Match)
    requires Embeds(w, p, a) && SameMatch(a, b)
    ensures Embeds(w, p, b)
  {
    hide Want; hide Readers;
    assert forall src :: Image(a, src) == Image(b, src);
    forall k: NodeId | k < |p.boxes| ensures BoxFits(w, p, b, k) {
      assert BoxFits(w, p, a, k);
      assert Images(a, p.At(k).inputs) == Images(b, p.At(k).inputs);
      forall port: nat | port < p.At(k).kind.Effect().outputs
        ensures Full(w, b, Readers(p, Port(k, port)), Port(b.nodes[k], port))
      {
        WantSame(a, b, Readers(p, Port(k, port)));
        assert Full(w, a, Readers(p, Port(k, port)), Port(a.nodes[k], port));
      }
    }
    forall j: nat | j < |p.outputs| ensures Serves(w, p, b, j) {
      assert Serves(w, p, a, j);
      forall sink | sink in b.outputs[j] ensures sink in a.outputs[j] {
        assert sink in multiset(b.outputs[j]);
      }
    }
  }

  /** The next box placed as the embedding has it, what it names being bound. */
  lemma Advances(t: Trail, p: Wiring, m: Match, i: nat)
    requires Dense(p) && Toward(t, p, m, i) && i < |m.nodes|
    requires InputsBound(t, p.At(i), |p.At(i).inputs|) && BranchBound(t, p.At(i).kind)
    ensures Toward(t.(nodes := t.nodes[i := Some(m.nodes[i])], used := t.used + {m.nodes[i]}), p, m, i + 1)
  {
    var u := t.(nodes := t.nodes[i := Some(m.nodes[i])], used := t.used + {m.nodes[i]});
    assert m.nodes[..i + 1] == m.nodes[..i] + [m.nodes[i]];
    forall k: nat | k < i + 1 ensures InputsBound(u, p.At(k), |p.At(k).inputs|) && BranchBound(u, p.At(k).kind) {
      assert InputsBound(t, p.At(k), |p.At(k).inputs|) && BranchBound(t, p.At(k).kind);
    }
  }

  predicate StartsAt(m: Match, seed: NodeId) {
    |m.nodes| > 0 && m.nodes[0] == seed
  }

  class Search {
    const graph: Graph
    const pattern: Wiring
    const seed: NodeId
    /** An embedding the search is held to: if it is one and starts at the seed, it must be found. */
    ghost const goal: Match
    var nodes: seq<Option<NodeId>>
    var inputs: seq<Option<Source>>
    var branches: seq<Option<BranchId>>
    var used: set<NodeId>
    var found: seq<Match>

    function T(): Trail
      reads this
    {
      Trail(nodes, inputs, branches, used)
    }

    ghost predicate Valid()
      reads this, graph
    {
      && graph.S().Linked() && graph.W().Sound()
      && pattern.Sound() && Dense(pattern)
      && |nodes| == |pattern.boxes| && |inputs| == pattern.inputs && |branches| == pattern.branches
      && (forall k: NodeId | k < |pattern.boxes| && BranchOf(pattern.At(k).kind).Some? ::
        BranchOf(pattern.At(k).kind).value < pattern.branches)
      && (forall k | 0 <= k < |found| :: Embeds(graph.W(), pattern, found[k]) && StartsAt(found[k], seed))
      && (forall k: NodeId | k < |nodes| && nodes[k].Some? :: Fits(k, nodes[k].value))
      && (forall l | 0 <= l < |inputs| && inputs[l].Some? :: graph.W().Has(inputs[l].value))
      && OnlyBound() && (found != [] ==> Pins(pattern))
    }

    /** Nothing is bound but by a box. */
    ghost predicate OnlyBound()
      reads `inputs, `branches
    {
      && (forall l: nat | l < |inputs| && inputs[l].Some? :: ReadByABox(pattern, l))
      && (forall b: nat | b < |branches| && branches[b].Some? :: BranchNamed(pattern, b))
    }

    ghost predicate Fits(k: NodeId, host: NodeId)
      reads graph
      requires Dense(pattern) && k < |pattern.boxes|
    {
      graph.W().Live(host) && LikeKind(pattern.At(k).kind, graph.W().At(host).kind)
    }

    /** The goal is an embedding, and the first `i` boxes are placed as it has them. */
    ghost predicate OnTrack(i: nat)
      reads this, graph
      requires Valid()
    {
      InOrder(pattern) && Embeds(graph.W(), pattern, goal) && Toward(T(), pattern, goal, i)
    }

    ghost predicate BoxBound(i: nat)
      reads this, graph
      requires Valid() && i < |nodes|
    {
      InputsBound(T(), pattern.At(i), |pattern.At(i).inputs|) && BranchBound(T(), pattern.At(i).kind)
    }

    constructor (graph: Graph, pattern: Wiring, seed: NodeId, ghost goal: Match)
      requires graph.S().Linked() && graph.W().Sound()
      requires pattern.Sound() && Dense(pattern)
      requires forall k: NodeId | k < |pattern.boxes| && BranchOf(pattern.At(k).kind).Some? ::
        BranchOf(pattern.At(k).kind).value < pattern.branches
      ensures Valid() && this.graph == graph && this.pattern == pattern && this.seed == seed && this.goal == goal
      ensures found == [] && nodes == seq(|pattern.boxes|, i => None)
      ensures InOrder(pattern) && Embeds(graph.W(), pattern, goal) ==> OnTrack(0)
    {
      this.graph, this.pattern, this.seed, this.goal := graph, pattern, seed, goal;
      nodes := seq(|pattern.boxes|, i => None);
      inputs := seq(pattern.inputs, i => None);
      branches := seq(pattern.branches, i => None);
      used, found := {}, [];
    }

    /** Takes back what a failed or finished assignment bound. */
    method Rollback(fixed: seq<nat>, branch: Option<nat>)
      modifies `inputs, `branches
      ensures inputs == Cleared(old(inputs), fixed)
      ensures branches == if branch.Some? then Cleared(old(branches), [branch.value]) else old(branches)
    {
      inputs := Cleared(inputs, fixed);
      if branch.Some? {
        branches := Cleared(branches, [branch.value]);
      }
    }

    /** The host boxes worth trying: once one source of a box is known, only that source's readers are. */
    method Candidates(i: nat) returns (hosts: seq<NodeId>)
      requires Valid() && i < |nodes|
      ensures forall k | 0 <= k < |hosts| :: i > 0 ==> graph.W().Live(hosts[k])
      ensures i == 0 ==> hosts == [seed]
      ensures i > 0 && OnTrack(i) ==> goal.nodes[i] in hosts
    {
      if i == 0 {
        return [seed];
      }
      hide Full; hide Serves; hide Store.Linked;
      var sources := pattern.At(i).inputs;
      for port := 0 to |sources| {
        var known := match sources[port]
          case Input(l) => if l < |inputs| then inputs[l] else None
          case Port(node, q) =>
            if node < |nodes| && nodes[node].Some? then Some(Port(nodes[node].value, q)) else None;
        if known.Some? {
          KnownIsHeld(i, port, known.value);
          hosts := SlotsAt(known.value, port);
          if OnTrack(i) {
            KnownIsImage(i, port, known.value);
          }
          return;
        }
      }
      hosts := AllLive();
    }

    lemma KnownIsHeld(i: nat, port: nat, known: Source)
      requires Valid() && i < |nodes| && port < |pattern.At(i).inputs|
      requires match pattern.At(i).inputs[port]
        case Input(l) => l < |inputs| && inputs[l] == Some(known)
        case Port(node, q) => node < |nodes| && nodes[node].Some? && known == Port(nodes[node].value, q)
      ensures graph.W().Has(known)
    {
      Readable(pattern, i);
      match pattern.At(i).inputs[port]
      case Input(_) =>
      case Port(node, _) => LikeKindShapes(pattern.At(node).kind, graph.W().At(nodes[node].value).kind);
    }

    lemma KnownIsImage(i: nat, port: nat, known: Source)
      requires Valid() && i < |nodes| && OnTrack(i) && port < |pattern.At(i).inputs|
      requires match pattern.At(i).inputs[port]
        case Input(l) => l < |inputs| && inputs[l] == Some(known)
        case Port(node, q) => node < |nodes| && nodes[node].Some? && known == Port(nodes[node].value, q)
      ensures graph.W().Reads(Slot(goal.nodes[i], port)) == Some(known)
    {
      hide Full; hide Serves;
      assert BoxFits(graph.W(), pattern, goal, i);
    }

    /** The boxes that read a source at one port. */
    method SlotsAt(src: Source, port: nat) returns (hosts: seq<NodeId>)
      requires Valid() && graph.W().Has(src)
      ensures forall k | 0 <= k < |hosts| :: graph.W().Live(hosts[k])
      ensures forall id | graph.W().Reads(Slot(id, port)) == Some(src) :: id in hosts
    {
      hosts := [];
      var sinks := graph.S().Sinks(src);
      for k := 0 to |sinks|
        invariant forall j | 0 <= j < |hosts| :: graph.W().Live(hosts[j])
        invariant forall j | 0 <= j < k && sinks[j].Slot? && sinks[j].port == port :: sinks[j].node in hosts
      {
        if sinks[k].Slot? && sinks[k].port == port {
          assert sinks[k] in multiset(sinks) && graph.S().Listed(src, sinks[k], iset{});
          hosts := hosts + [sinks[k].node];
        }
      }
      forall id | graph.W().Reads(Slot(id, port)) == Some(src) ensures id in hosts {
        assert graph.S().Listed(src, Slot(id, port), iset{});
        assert Slot(id, port) in sinks;
      }
    }

    method AllLive() returns (hosts: seq<NodeId>)
      ensures forall id: NodeId :: id in hosts <==> graph.W().Live(id)
    {
      hosts := [];
      for k: nat := 0 to |graph.nodes|
        invariant forall id: NodeId :: id in hosts <==> id < k && graph.W().Live(id)
      {
        if graph.nodes[k].Some? {
          hosts := hosts + [k];
        }
      }
    }

    /** Binds the branch a box is an end of, if it is an end of one. `None` refuses. */
    method BindBranch(i: nat, host: NodeId, ghost aimed: bool) returns (r: Option<Option<nat>>)
      requires Valid() && i < |nodes| && graph.W().Live(host) && (aimed ==> OnTrack(i) && host == goal.nodes[i])
      modifies `branches
      ensures Valid()
      ensures r.None? ==> branches == old(branches)
      ensures r.Some? && r.value.None? ==> branches == old(branches)
      ensures r.Some? && r.value.Some? ==>
        r.value.value < |branches| && Cleared(branches, [r.value.value]) == old(branches)
      ensures aimed ==> r.Some? && OnTrack(i) && BranchBound(T(), pattern.At(i).kind)
    {
      hide Full; hide Serves; hide Store.Linked;
      if aimed {
        assert BoxFits(graph.W(), pattern, goal, i);
      }
      var kind, there := pattern.At(i).kind, graph.nodes[host].value.kind;
      assert graph.W().At(host).kind == there;
      if (kind.Fork? && there.Fork?) || (kind.Select? && there.Select?) {
        var held := branches[kind.branch];
        if held.Some? {
          return if held.value != there.branch then None else Some(None);
        }
        branches := branches[kind.branch := Some(there.branch)];
        return Some(Some(kind.branch));
      }
      return Some(None);
    }

    /** What the host's port reads is there, and is the embedding's image of what the pattern's port reads. */
    lemma PortHeld(i: nat, host: NodeId, port: nat)
      requires Valid() && i < |nodes| && Fits(i, host) && port < |pattern.At(i).inputs|
      ensures pattern.Has(pattern.At(i).inputs[port]) && port < |graph.nodes[host].value.inputs|
      ensures graph.W().Has(graph.nodes[host].value.inputs[port])
      ensures OnTrack(i) && host == goal.nodes[i] ==>
        graph.nodes[host].value.inputs[port] == Image(goal, pattern.At(i).inputs[port])
    {
      hide Full; hide Serves; hide Store.Linked;
      if OnTrack(i) && host == goal.nodes[i] {
        assert BoxFits(graph.W(), pattern, goal, i);
      }
      LikeKindShapes(pattern.At(i).kind, graph.W().At(host).kind);
      Readable(pattern, i);
      Readable(graph.W(), host);
      assert graph.W().At(host).inputs == graph.nodes[host].value.inputs;
    }

    /** Holds one port of a box to what is bound, binding a boundary input it is the first to name. */
    method BindPort(i: nat, host: NodeId, port: nat, ghost aimed: bool) returns (r: Option<Option<nat>>)
      requires Valid() && i < |nodes| && Fits(i, host) && port < |pattern.At(i).inputs|
      requires aimed ==> OnTrack(i) && host == goal.nodes[i] && InputsBound(T(), pattern.At(i), port)
      modifies `inputs
      ensures Valid()
      ensures r.None? || r.value.None? ==> inputs == old(inputs)
      ensures r.Some? && r.value.Some? ==>
        r.value.value < |inputs| && old(inputs)[r.value.value].None? && inputs[r.value.value].Some?
        && inputs == old(inputs)[r.value.value := inputs[r.value.value]]
      ensures aimed ==> r.Some? && OnTrack(i) && InputsBound(T(), pattern.At(i), port + 1)
    {
      PortHeld(i, host, port);
      hide Embeds; hide Store.Linked; hide Wiring.Sound;
      var there := graph.nodes[host].value.inputs[port];
      match pattern.At(i).inputs[port] {
        case Input(l) =>
          if inputs[l].Some? {
            return if inputs[l].value != there then None else Some(None);
          }
          inputs := inputs[l := Some(there)];
          return Some(Some(l));
        case Port(node, q) =>
          return if nodes[node] != None && Port(nodes[node].value, q) == there then Some(None) else None;
      }
    }

    /** Every port of a box, in order, until one refuses. */
    method BindInputs(i: nat, host: NodeId, ghost aimed: bool) returns (ok: bool, fixed: seq<nat>)
      requires Valid() && i < |nodes| && Fits(i, host) && (aimed ==> OnTrack(i) && host == goal.nodes[i])
      modifies `inputs
      ensures Valid() && Cleared(inputs, fixed) == old(inputs)
      ensures aimed ==> ok && OnTrack(i) && InputsBound(T(), pattern.At(i), |pattern.At(i).inputs|)
    {
      hide Embeds; hide Store.Linked; hide Toward; hide Wiring.Sound; hide Fits; hide InOrder;
      ok, fixed := true, [];
      var n := |pattern.At(i).inputs|;
      NothingBound(i);
      for port: nat := 0 to n
        invariant Valid() && Fits(i, host) && Cleared(inputs, fixed) == old(inputs)
        invariant aimed ==> OnTrack(i) && InputsBound(T(), pattern.At(i), port)
      {
        var bound := BindPort(i, host, port, aimed);
        if bound.None? {
          return false, fixed;
        }
        if bound.value.Some? {
          fixed := fixed + [bound.value.value];
        }
      }
    }

    lemma NothingBound(i: nat)
      requires Valid() && i < |nodes|
      ensures InputsBound(T(), pattern.At(i), 0)
    {
    }

    /** Binds what one box names in the host, or leaves everything as it was. */
    method Bind(i: nat, host: NodeId, ghost aimed: bool) returns (r: Option<Bound>)
      requires Valid() && i < |nodes| && graph.W().Live(host) && (aimed ==> OnTrack(i) && host == goal.nodes[i])
      modifies `inputs, `branches
      ensures Valid() && (r.None? ==> T() == old(T())) && (r.Some? ==> Fits(i, host))
      ensures r.Some? ==> Cleared(inputs, r.value.inputs) == old(inputs)
      ensures r.Some? && r.value.branch.Some? ==> Cleared(branches, [r.value.branch.value]) == old(branches)
      ensures r.Some? && r.value.branch.None? ==> branches == old(branches)
      ensures aimed ==> r.Some? && OnTrack(i) && BoxBound(i)
    {
      if aimed {
        GoalFits(i);
      }
      FitsMeans(i, host);
      hide Embeds; hide Store.Linked; hide Toward; hide Wiring.Sound; hide InOrder; hide InputsBound;
      hide Fits; hide LikeKind; hide BranchBound; hide Dense;
      var branch := BindBranch(i, host, aimed);
      if branch.None? {
        return None;
      }
      if !LikeKind(pattern.At(i).kind, graph.nodes[host].value.kind) {
        Rollback([], branch.value);
        return None;
      }
      var ok, fixed := BindInputs(i, host, aimed);
      if !ok {
        Rollback(fixed, branch.value);
        return None;
      }
      return Some(Bound(fixed, branch.value));
    }

    /** Tries host box `host` for pattern box `i`; on refusal nothing has changed. */
    method Assign(i: nat, host: NodeId, ghost aimed: bool) returns (r: Option<Bound>)
      requires Valid() && i < |nodes| && nodes[i].None? && graph.W().Live(host)
      requires aimed ==> OnTrack(i) && host == goal.nodes[i]
      modifies `nodes, `inputs, `branches, `used
      ensures Valid()
      ensures r.None? ==> T() == old(T())
      ensures r.Some? ==> nodes[i] == Some(host) && T().Without(i, host, r.value) == old(T())
      ensures aimed ==> r.Some? && OnTrack(i + 1)
    {
      if aimed {
        GoalFits(i);
      }
      hide Embeds; hide Store.Linked; hide Toward; hide Wiring.Sound; hide InOrder; hide InputsBound; hide LikeKind;
      if host in used {
        return None;
      }
      r := Bind(i, host, aimed);
      if r.None? {
        return;
      }
      if aimed {
        Advances(T(), pattern, goal, i);
      }
      nodes := nodes[i := Some(host)];
      used := used + {host};
    }

    lemma FitsMeans(i: nat, host: NodeId)
      requires Dense(pattern) && i < |pattern.boxes| && graph.W().Live(host)
      ensures Fits(i, host) <==> LikeKind(pattern.At(i).kind, graph.nodes[host].value.kind)
    {
    }

    lemma GoalFits(i: nat)
      requires Valid() && i < |nodes| && OnTrack(i)
      ensures Fits(i, goal.nodes[i]) && goal.nodes[i] !in used
    {
      hide Full; hide Serves;
      assert BoxFits(graph.W(), pattern, goal, i);
    }

    // ---- every box placed ----

    /** Who reads what a boundary output names, but for the pattern's own readers of it. */
    method OutsideReaders(j: nat) returns (r: Option<seq<Sink>>)
      requires Valid() && j < |pattern.outputs| && pattern.outputs[j].Port? && Distinct(pattern.outputs)
      requires forall k | 0 <= k < |nodes| :: nodes[k].Some?
      ensures OnTrack(|nodes|) ==> r.Some? && multiset(r.value) == multiset(goal.outputs[j])
    {
      hide Serves; hide BoxFits; hide Store.Linked; hide Readers; hide Want; hide WantInside;
      var src := pattern.outputs[j];
      OutputsHeld(pattern, j);
      var host := Port(nodes[src.node].value, src.port);
      var readers := Readers(pattern, src);
      var left := graph.S().Sinks(host);
      if OnTrack(|nodes|) {
        HostReaders(j);
        assert readers[0..] == readers;
      }
      ghost var on := OnTrack(|nodes|);
      hide Embeds; hide Toward; hide Wiring.Sound; hide ServedFor;
      for t := 0 to |readers|
        invariant on ==> multiset(left) == Remaining(readers, t) + multiset(goal.outputs[j])
      {
        if readers[t].Output? {
          InsideSkips(readers, t);
          continue;
        }
        ReadersHas(pattern, src, readers[t]);
        var theirs := Slot(nodes[readers[t].node].value, readers[t].port);
        if on {
          TheirsIsServed(readers[t]);
          InsideStep(readers, t, theirs);
        }
        if Position(left, theirs).None? {
          return None;
        }
        ForgotCounts(left, theirs);
        left := Forgot(left, theirs);
      }
      if on {
        NothingRemains(readers);
      }
      return Some(left);
    }

    /** The pattern's own readers of a port that have still to be taken off the host's list. */
    ghost function Remaining(readers: seq<Sink>, t: int): multiset<Sink>
      requires 0 <= t <= |readers|
    {
      multiset(WantInside(goal, readers[t..]))
    }

    lemma NothingRemains(readers: seq<Sink>)
      ensures Remaining(readers, |readers|) == multiset{}
    {
    }

    lemma InsideSkips(readers: seq<Sink>, t: int)
      requires 0 <= t < |readers| && readers[t].Output?
      ensures Remaining(readers, t) == Remaining(readers, t + 1)
    {
      assert readers[t..][0] == readers[t] && readers[t..][1..] == readers[t + 1..];
    }

    lemma InsideStep(readers: seq<Sink>, t: int, theirs: Sink)
      requires 0 <= t < |readers| && readers[t].Slot? && ServedFor(goal, readers[t]) == [theirs]
      ensures Remaining(readers, t) == multiset{theirs} + Remaining(readers, t + 1)
    {
      assert readers[t..][0] == readers[t] && readers[t..][1..] == readers[t + 1..];
    }

    lemma TheirsIsServed(reader: Sink)
      requires Valid() && OnTrack(|nodes|) && reader.Slot? && reader.node < |nodes| && nodes[reader.node].Some?
      ensures ServedFor(goal, reader) == [Slot(nodes[reader.node].value, reader.port)]
    {
      hide BoxFits; hide Serves;
    }

    lemma HostReaders(j: nat)
      requires Valid() && j < |pattern.outputs| && pattern.outputs[j].Port? && Distinct(pattern.outputs)
      requires OnTrack(|nodes|)
      ensures var src := pattern.outputs[j];
        src.node < |nodes| && nodes[src.node].Some? &&
        multiset(graph.S().Sinks(Port(nodes[src.node].value, src.port)))
          == multiset(WantInside(goal, Readers(pattern, src))) + multiset(goal.outputs[j])
    {
      hide Serves; hide Store.Linked; hide Readers; hide Want;
      var src := pattern.outputs[j];
      OutputsHeld(pattern, j);
      assert BoxFits(graph.W(), pattern, goal, src.node);
      SameKindShapes(pattern.At(src.node).kind, graph.W().At(goal.nodes[src.node]).kind, goal.branches);
      var readers := Readers(pattern, Port(src.node, src.port));
      FullAsLists(graph, goal, readers, Port(goal.nodes[src.node], src.port));
      WantParts(goal, readers);
      OutsideIsOutput(pattern, goal, j);
    }

    /** Every box placed: who reads what the pattern leaves is read off, and the whole held to the check. */
    method Finish()
      requires Valid() && Anchored(pattern) && nodes[0] == Some(seed)
      modifies `found
      ensures Valid() && old(found) <= found
      ensures Pins(pattern) && old(OnTrack(|nodes|)) ==> Found(|old(found)|)
    {
      hide Embeds; hide Toward; hide Wiring.Sound; hide Store.Linked; hide BoxFits; hide Serves; hide Readers;
      ghost var on := Pins(pattern) && OnTrack(|nodes|);
      if on {
        GoalBinds();
      }
      var placed, sources, names := AllOf(nodes), AllOf(inputs), AllOf(branches);
      if placed.None? || sources.None? || names.None? {
        return;
      }
      AllBound();
      var outputs: seq<seq<Sink>> := [];
      for j: nat := 0 to |pattern.outputs|
        invariant Valid() && found == old(found) && T() == old(T()) && |outputs| == j
        invariant on ==> |goal.outputs| == |pattern.outputs| && forall k | 0 <= k < j ::
          multiset(outputs[k]) == multiset(goal.outputs[k])
      {
        var left := OutsideReaders(j);
        if left.None? {
          return;
        }
        outputs := outputs + [left.value];
      }
      var m := Match(placed.value, sources.value, outputs, names.value);
      if on {
        assert SameMatch(goal, m);
        SameMatchEmbeds(graph.W(), pattern, goal, m);
      }
      var checked := CheckMatch(graph, pattern, m);
      if checked.Ok? {
        found := found + [m];
        assert found[|old(found)|] == m;
      }
    }

    lemma AllBound()
      requires Valid() && Anchored(pattern) && AllOf(inputs).Some? && AllOf(branches).Some?
      ensures Pins(pattern)
    {
    }

    /** The goal is among what was found from the `n`th on. */
    ghost predicate Found(n: nat)
      reads this
    {
      exists k :: n <= k < |found| && SameMatch(goal, found[k])
    }

    lemma GoalBinds()
      requires Valid() && Pins(pattern) && OnTrack(|nodes|)
      ensures AllOf(nodes) == Some(goal.nodes) && AllOf(inputs) == Some(goal.inputs)
      ensures AllOf(branches) == Some(goal.branches) && |goal.outputs| == |pattern.outputs|
    {
      hide BoxFits; hide Serves;
      forall l: nat | l < |inputs| ensures inputs[l].Some? {
        assert ReadByABox(pattern, l);
        var k: NodeId :| pattern.Live(k) && Input(l) in pattern.At(k).inputs;
        assert InputsBound(T(), pattern.At(k), |pattern.At(k).inputs|);
      }
      forall b: nat | b < |branches| ensures branches[b].Some? {
        assert BranchNamed(pattern, b);
        var k: NodeId :| pattern.Live(k) && BranchOf(pattern.At(k).kind) == Some(b);
        assert BranchBound(T(), pattern.At(k).kind);
      }
      AllOfIs(nodes, goal.nodes);
      AllOfIs(inputs, goal.inputs);
      AllOfIs(branches, goal.branches);
    }

    /** Where the goal has box `i`. */
    ghost function Aim(i: nat): (id: NodeId)
      reads this, graph
      requires Valid()
      ensures OnTrack(i) && i < |nodes| ==> i < |goal.nodes| && id == goal.nodes[i]
    {
      if i < |goal.nodes| then goal.nodes[i] else 0
    }

    /** Places the pattern's boxes from the `i`th on in every way that fits, and leaves the trail as it was. */
    method Walk(i: nat)
      requires Valid() && Anchored(pattern) && i <= |nodes| && graph.W().Live(seed)
      requires (forall k | i <= k < |nodes| :: nodes[k].None?) && (i > 0 ==> nodes[0] == Some(seed))
      modifies this
      ensures Valid() && T() == old(T()) && old(found) <= found
      ensures Pins(pattern) && old(OnTrack(i)) && (i == 0 ==> goal.nodes[0] == seed) ==> Found(|old(found)|)
      decreases |nodes| - i, 1
    {
      hide Embeds; hide Toward; hide Wiring.Sound; hide Store.Linked; hide InOrder; hide Fits; hide Pins;
      hide Distinct; hide OnlyBound; hide SameMatch; hide StartsAt;
      ghost var on := Pins(pattern) && OnTrack(i) && (i == 0 ==> Aim(0) == seed);
      ghost var aim := Aim(i);
      if i == |nodes| {
        Finish();
        return;
      }
      var hosts := Candidates(i);
      assert on ==> aim in hosts;
      for k := 0 to |hosts|
        invariant Valid() && T() == old(T()) && old(found) <= found
        invariant on && aim in hosts[..k] ==> Found(|old(found)|)
      {
        Try(i, hosts[k], on && hosts[k] == aim);
      }
      assert hosts[..|hosts|] == hosts;
    }

    /** One host for the pattern's box `i`: everything that follows from it, and then the trail as it was. */
    method Try(i: nat, host: NodeId, ghost aimed: bool)
      requires Valid() && Anchored(pattern) && i < |nodes| && graph.W().Live(seed) && graph.W().Live(host)
      requires (forall k | i <= k < |nodes| :: nodes[k].None?)
      requires (if i > 0 then nodes[0] == Some(seed) else host == seed)
      requires aimed ==> Pins(pattern) && OnTrack(i) && host == goal.nodes[i]
      modifies this
      ensures Valid() && T() == old(T()) && old(found) <= found
      ensures aimed ==> Found(|old(found)|)
      decreases |nodes| - i, 0
    {
      hide Embeds; hide Toward; hide Wiring.Sound; hide Store.Linked; hide InOrder; hide Fits;
      var bound := Assign(i, host, aimed);
      if bound.Some? {
        assert nodes[i := None] == old(nodes);
        assert forall k | i < k < |nodes| :: nodes[i := None][k] == nodes[k];
        Walk(i + 1);
        Retract(i, host, bound.value);
      }
    }

    /** An assignment taken back. */
    method Retract(i: nat, host: NodeId, bound: Bound)
      requires Valid() && i < |nodes|
      modifies `nodes, `inputs, `branches, `used
      ensures T() == old(T()).Without(i, host, bound)
      ensures Valid()
    {
      nodes := nodes[i := None];
      used := used - {host};
      Rollback(bound.inputs, bound.branch);
    }
  }

  function AllOf<T>(s: seq<Option<T>>): (r: Option<seq<T>>)
    ensures r.Some? <==> forall k | 0 <= k < |s| :: s[k].Some?
    ensures r.Some? ==> |r.value| == |s| && forall k | 0 <= k < |s| :: s[k] == Some(r.value[k])
  {
    if forall k | 0 <= k < |s| ::
      s[k].Some? then Some(seq(|s|, k requires 0 <= k < |s| && s[k].Some? => s[k].value)) else None
  }

  lemma AllOfIs<T>(s: seq<Option<T>>, x: seq<T>)
    requires |s| == |x| && forall k: nat | k < |s| :: s[k] == Some(x[k])
    ensures AllOf(s) == Some(x)
  {
    assert AllOf(s).value == x;
  }

  /** Tests that there is a box to start from and that the outputs are different ports. */
  method PinsItself(p: Wiring) returns (r: bool)
    ensures r <==> Anchored(p)
  {
    if |p.boxes| == 0 {
      return false;
    }
    var seen: set<Source> := {};
    for j := 0 to |p.outputs|
      invariant forall src :: src in seen <==> src in p.outputs[..j]
      invariant forall k | 0 <= k < j :: p.outputs[k].Port?
      invariant Distinct(p.outputs[..j])
    {
      if !p.outputs[j].Port? || p.outputs[j] in seen {
        return false;
      }
      seen := seen + {p.outputs[j]};
    }
    assert p.outputs[..|p.outputs|] == p.outputs;
    return true;
  }

  /**
   * The embeddings that send pattern box 0 to `seed` and nothing else; all of them, if the pattern pins its
   * own match. A pattern that does not has nothing found for it.
   */
  method FindAt(graph: Graph, pattern: Wiring, seed: NodeId, ghost goal: Match) returns (found: seq<Match>)
    requires graph.S().Linked() && graph.W().Sound() && pattern.Sound() && Dense(pattern)
    requires forall k: NodeId | k < |pattern.boxes| && BranchOf(pattern.At(k).kind).Some? ::
      BranchOf(pattern.At(k).kind).value < pattern.branches
    ensures forall k | 0 <= k < |found| :: Embeds(graph.W(), pattern, found[k]) && StartsAt(found[k], seed)
    ensures Pins(pattern) && InOrder(pattern) && Embeds(graph.W(), pattern, goal) && goal.nodes[0] == seed ==>
      exists k :: 0 <= k < |found| && SameMatch(goal, found[k])
    ensures !Pins(pattern) ==> found == []
  {
    var anchored := PinsItself(pattern);
    if !anchored || !graph.W().Live(seed) {
      return [];
    }
    var search := new Search(graph, pattern, seed, goal);
    search.Walk(0);
    found := search.found;
  }
}
