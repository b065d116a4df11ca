/** Steps: a law, a direction and a match, and what it takes for one to land. */
module Steps {
  import opened Wrappers
  import opened Values
  import opened Wirings
  import opened Splices
  import opened Laws
  import opened Graphs

  datatype Direction = Forward | Backward {
    function Flipped(): Direction {
      if Forward? then Backward else Forward
    }
  }

  datatype Step = Step(rule: Rule, dir: Direction, at: Match)

  /** The first thing found wrong with a match. */
  datatype Mismatch =
    | Shape
    | Gone(node: NodeId)
    | KindDiffers(node: NodeId)
    | Edge(sink: Sink)
    | ReadersDiffer(src: Source)
    | Induced(src: Source)

  datatype StepError = Refused | NotThere(why: Mismatch)

  // ---- comparing ----

  /** No member twice. */
  method AllDistinct(s: seq<nat>) returns (distinct: bool)
    ensures distinct <==> Distinct(s)
  {
    var seen: set<nat> := {};
    for i := 0 to |s|
      invariant forall x :: x in seen <==> x in s[..i]
      invariant Distinct(s[..i])
    {
      if s[i] in seen {
        var k :| 0 <= k < i && s[k] == s[i];
        return false;
      }
      seen := seen + {s[i]};
      assert s[..i + 1] == s[..i] + [s[i]];
    }
    assert s[..|s|] == s;
    return true;
  }

  function Count(tally: map<Sink, int>, s: Sink): int {
    if s in tally then tally[s] else 0
  }

  /** Every member counted, up or down. */
  method Tally(before: map<Sink, int>, s: seq<Sink>, unit: int) returns (tally: map<Sink, int>)
    requires unit == 1 || unit == -1
    ensures forall x :: Count(tally, x) == Count(before, x) + unit * multiset(s)[x]
  {
    tally := before;
    for i := 0 to |s|
      invariant forall x :: Count(tally, x) == Count(before, x) + unit * multiset(s[..i])[x]
    {
      assert s[..i + 1] == s[..i] + [s[i]];
      tally := tally[s[i] := Count(tally, s[i]) + unit];
    }
    assert s[..|s|] == s;
  }

  /** Decides equality of the two lists as multisets. */
  method SameReaders(want: seq<Sink>, have: seq<Sink>) returns (same: bool)
    ensures same <==> multiset(want) == multiset(have)
  {
    if |want| != |have| {
      assert |multiset(want)| != |multiset(have)|;
      return false;
    }
    var tally := Tally(map[], want, 1);
    tally := Tally(tally, have, -1);
    same := forall s | s in tally :: tally[s] == 0;
    if same {
      forall s ensures multiset(want)[s] == multiset(have)[s] {
        assert Count(tally, s) == 0;
      }
    } else {
      var s :| s in tally && tally[s] != 0;
      assert Count(tally, s) != 0;
    }
  }

  // ---- the check ----

  /** A linked graph's own list of readers, held against the ones a match accounts for. */
  lemma FullAsLists(graph: Graph, m: Match, readers: seq<Sink>, src: Source)
    requires graph.S().Linked() && graph.W().Has(src)
    ensures Full(graph.W(), m, readers, src) <==> multiset(Want(m, readers)) == multiset(graph.S().Sinks(src))
  {
    var want, have := Want(m, readers), graph.S().Sinks(src);
    forall sink ensures multiset(have)[sink] == if graph.W().Reads(sink) == Some(src) then 1 else 0 {
      assert graph.S().Listed(src, sink, iset{});
    }
    if Full(graph.W(), m, readers, src) {
      assert forall sink :: multiset(want)[sink] == multiset(have)[sink];
    }
  }

  /** One box against the host's box in its place: kind, edges, and every reader of every port. */
  method CheckBox(graph: Graph, p: Wiring, m: Match, k: NodeId) returns (r: Result<(), Mismatch>)
    requires graph.S().Linked() && graph.W().Sound() && p.Sound() && p.Live(k) && k < |m.nodes|
    requires graph.W().Live(m.nodes[k])
    ensures r.Ok? <==> BoxFits(graph.W(), p, m, k)
  {
    hide Full; hide Store.Linked; hide Want; hide Readers;
    var host := m.nodes[k];
    var node := graph.nodes[host].value;
    var box := p.At(k);
    if !SameKind(box.kind, node.kind, m.branches) {
      return Err(KindDiffers(host));
    }
    SameKindShapes(box.kind, node.kind, m.branches);
    assert graph.W().At(host) == Box(node.kind, node.inputs);
    for port := 0 to |box.inputs|
      invariant forall q | 0 <= q < port :: node.inputs[q] == Image(m, box.inputs[q])
    {
      if node.inputs[port] != Image(m, box.inputs[port]) {
        return Err(Edge(Slot(host, port)));
      }
    }
    assert node.inputs == Images(m, box.inputs);
    for port := 0 to box.kind.Effect().outputs
      invariant forall q: nat | q < port :: Full(graph.W(), m, Readers(p, Port(k, q)), Port(host, q))
    {
      assert graph.W().Has(Port(host, port));
      FullAsLists(graph, m, Readers(p, Port(k, port)), Port(host, port));
      var same := SameReaders(Want(m, Readers(p, Port(k, port))), graph.S().Sinks(Port(host, port)));
      if !same {
        return Err(ReadersDiffer(Port(host, port)));
      }
    }
    r := Ok(());
  }

  lemma SameKindShapes(a: Kind, b: Kind, branches: seq<BranchId>)
    requires SameKind(a, b, branches)
    ensures a.Effect() == b.Effect()
  {
  }

  /** One boundary output: every sink handed to it reads what it names, from outside. */
  method CheckServed(graph: Graph, p: Wiring, m: Match, j: nat) returns (r: Result<(), Mismatch>)
    requires j < |p.outputs| && j < |m.outputs|
    ensures r.Ok? <==> Serves(graph.W(), p, m, j)
  {
    var want := Image(m, p.outputs[j]);
    var sinks := m.outputs[j];
    for t := 0 to |sinks|
      invariant forall q | 0 <= q < t :: graph.W().Reads(sinks[q]) == Some(want) && !Inside(m, sinks[q])
    {
      if graph.W().Reads(sinks[t]) != Some(want) {
        return Err(ReadersDiffer(want));
      }
      if Inside(m, sinks[t]) {
        return Err(Induced(want));
      }
    }
    r := Ok(());
  }

  /** Decides `Embeds`, and says what is wrong when it does not hold. */
  method CheckMatch(graph: Graph, p: Wiring, m: Match) returns (r: Result<(), Mismatch>)
    requires graph.S().Linked() && graph.W().Sound() && p.Sound() && Dense(p)
    ensures r.Ok? <==> Embeds(graph.W(), p, m)
  {
    hide BoxFits; hide Serves; hide Store.Linked; hide Distinct;
    if |m.nodes| != |p.boxes| || |m.inputs| != p.inputs || |m.outputs| != |p.outputs| || |m.branches| != p.branches {
      return Err(Shape);
    }
    var apart := AllDistinct(m.nodes);
    var named := AllDistinct(m.branches);
    if !apart || !named {
      return Err(Shape);
    }
    for k := 0 to |m.nodes|
      invariant forall q | 0 <= q < k :: graph.W().Live(m.nodes[q])
    {
      if !graph.W().Live(m.nodes[k]) {
        return Err(Gone(m.nodes[k]));
      }
    }
    for k: nat := 0 to |p.boxes|
      invariant forall q: NodeId | q < k :: BoxFits(graph.W(), p, m, q)
    {
      r := CheckBox(graph, p, m, k);
      if r.Err? {
        return;
      }
    }
    for j: nat := 0 to |p.outputs|
      invariant forall q: nat | q < j :: Serves(graph.W(), p, m, q)
    {
      r := CheckServed(graph, p, m, j);
      if r.Err? {
        return;
      }
    }
    for i := 0 to |m.inputs|
      invariant forall q | 0 <= q < i :: !PortInside(m, m.inputs[q])
    {
      if PortInside(m, m.inputs[i]) {
        return Err(Induced(m.inputs[i]));
      }
    }
    r := Ok(());
  }

  // ---- applying a step ----

  /** Both sides of every law are graphs that can be matched and put in. */
  lemma SidesReady(rule: Rule)
    requires Sides(rule).Some?
    ensures var (l, r) := Sides(rule).value;
      && l.Whole() && Dense(l) && InOrder(l) && r.Whole() && Dense(r) && InOrder(r) && l.Effect() == r.Effect()
  {
    hide Meaning; hide OpAnswer; hide Wiring.Sound; hide Wiring.Acyclic;
    if rule.Structural() {
      StructuralSidesFlat(rule);
      FlatWhole(Sides(rule).value.0);
      FlatWhole(Sides(rule).value.1);
    } else {
      LongMeans(Stubborn(), [UNIT]);
      ShortMeans(Stubborn(), [UNIT]);
    }
  }

  function Pattern(step: Step): Wiring
    requires Sides(step.rule).Some?
  {
    if step.dir.Forward? then Sides(step.rule).value.0 else Sides(step.rule).value.1
  }

  function Replacement(step: Step): Wiring
    requires Sides(step.rule).Some?
  {
    if step.dir.Forward? then Sides(step.rule).value.1 else Sides(step.rule).value.0
  }

  /** The step lands: its law states an equation and its match is one. */
  ghost predicate Lands(w: Wiring, step: Step) {
    Sides(step.rule).Some? && Embeds(w, Pattern(step), step.at)
  }

  function Rewritten(w: Wiring, step: Step): Wiring
    requires Sides(step.rule).Some?
  {
    Spliced(w, Replacement(step), step.at)
  }

  /** A step of a law, either way: the branch ends it puts in, if any, are new. */
  lemma StepKeepsEnds(w: Wiring, step: Step)
    requires Ended(w) && Sides(step.rule).Some?
    requires |step.at.branches| == Pattern(step).branches
    ensures Ended(Rewritten(w, step))
  {
    var (r, m) := (Replacement(step), step.at);
    var after := Rewritten(w, step);
    assert Dense(r);
    forall id: NodeId | after.Live(id) && EndOf(after.At(id).kind).Some?
      ensures EndOf(after.At(id).kind).value.0 < after.branches
      ensures if id < |w.boxes| then w.Live(id) && w.At(id).kind == after.At(id).kind
        else id == |w.boxes| && EndOf(after.At(id).kind).value.0 >= w.branches
    {
      SplicedAt(w, r, m, id);
      if id >= |w.boxes| {
        OwnEnd(step, id - |w.boxes|);
      }
    }
  }

  /** Only the box a dead end comes back as is a branch end, and the law alone has named its branch. */
  lemma OwnEnd(step: Step, k: nat)
    requires Sides(step.rule).Some?
    requires k < |Replacement(step).boxes| && EndOf(Replacement(step).At(k).kind).Some?
    ensures k == 0 && Pattern(step).branches == 0 && Replacement(step).branches == 1
    ensures EndOf(Replacement(step).At(k).kind).value.0 == 0
  {
  }

  /** The step that undoes it. */
  function Inverse(w: Wiring, step: Step): Step
    requires Sides(step.rule).Some?
  {
    Step(step.rule, step.dir.Flipped(), Back(w, Replacement(step), step.at))
  }

  /** The first box of every left side reads the whole boundary, in order. */
  lemma LeftSidesRead(rule: Rule)
    requires Sides(rule).Some?
    ensures var l := Sides(rule).value.0; |l.boxes| > 0 && l.Live(0) && l.At(0).inputs == Inputs(l.inputs)
  {
  }

  /** A match of a left side says itself what its boundary inputs stand for. */
  lemma ForwardIsGrounded(w: Wiring, step: Step)
    requires w.Sound() && step.dir.Forward? && Lands(w, step)
    ensures Grounded(w, step.at)
  {
    var (p, m) := (Pattern(step), step.at);
    LeftSidesRead(step.rule);
    assert BoxFits(w, p, m, 0);
    forall i: nat | i < |m.inputs| ensures w.Has(m.inputs[i]) {
      assert w.At(m.nodes[0]).inputs[i] == Image(m, Input(i));
      assert w.Reads(Slot(m.nodes[0], i)) == Some(m.inputs[i]);
    }
  }

  /** Where a backward match that the check accepts names a source that is not there, the first box put in reads it. */
  lemma UngroundedIsRead(w: Wiring, step: Step)
    requires step.dir.Backward? && Lands(w, step) && !Grounded(w, step.at)
    ensures var r := Replacement(step);
      && |r.boxes| > 0 && r.Live(0) && exists i: nat ::
        i < |r.At(0).inputs| && r.At(0).inputs[i] == Input(i) && i < |step.at.inputs| && !w.Has(step.at.inputs[i])
  {
    LeftSidesRead(step.rule);
    SidesReady(step.rule);
    var i: nat :| i < |step.at.inputs| && !w.Has(step.at.inputs[i]);
    assert Replacement(step).At(0).inputs[i] == Input(i);
  }

  /**
   * Lands a step or leaves the graph alone, and returns the inverse of what landed. The check lets a backward
   * match name sources that are not there; a box put in would read one, so the caller has to rule that out.
   */
  method Apply(graph: Graph, step: Step) returns (r: Result<Step, StepError>)
    requires graph.S().Linked() && graph.W().Sound()
    requires step.dir.Backward? && Lands(graph.W(), step) ==> Grounded(graph.W(), step.at)
    modifies graph
    ensures r.Ok? <==> old(Lands(graph.W(), step))
    ensures r.Err? ==> graph.S() == old(graph.S())
    ensures r.Ok? ==> graph.S().Linked() && graph.W().Sound()
    ensures r.Ok? ==> graph.W() == Rewritten(old(graph.W()), step) && r.value == Inverse(old(graph.W()), step)
  {
    hide Store.Linked; hide Embeds; hide Spliced; hide Flat; hide Wiring.Sound;
    var sides := Sides(step.rule);
    if sides.None? {
      return Err(Refused);
    }
    SidesReady(step.rule);
    var pattern, replacement := Pattern(step), Replacement(step);
    var checked := CheckMatch(graph, pattern, step.at);
    if checked.Err? {
      return Err(NotThere(checked.error));
    }
    if step.dir.Forward? {
      ForwardIsGrounded(graph.W(), step);
    }
    SpliceSound(graph.W(), pattern, replacement, step.at);
    var back := graph.Splice(replacement, step.at, pattern);
    r := Ok(Step(step.rule, step.dir.Flipped(), back));
  }

  /** What a forward step of a structural law keeps: links, acyclicity, interface and meaning. */
  lemma ForwardKeeps(w: Wiring, step: Step)
    requires w.Whole() && step.dir.Forward? && step.rule.Structural() && Lands(w, step)
    ensures Grounded(w, step.at) && Alike(w, Rewritten(w, step))
  {
    ForwardStep(w, step.rule, step.at);
  }
}
