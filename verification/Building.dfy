/** The graph of a term: one box per leaf, nothing simplified. */
module Building {
  import opened Wrappers
  import opened Values
  import opened Terms
  import opened Wirings
  import opened Splices
  import opened Graphs

  /** Boxes read only boxes built before them. */
  ghost predicate Layered(w: Wiring) {
    forall id: NodeId, k | w.Live(id) && 0 <= k < |w.At(id).inputs| && w.At(id).inputs[k].Port? ::
      w.At(id).inputs[k].node < id
  }

  lemma LayeredIsAcyclic(w: Wiring)
    requires Layered(w) && w.Sound()
    ensures w.Acyclic()
  {
    var rank := seq(|w.boxes|, (k: nat) => k);
    forall id: NodeId, k: nat | w.Live(id) && k < |w.At(id).inputs|
      ensures ReadsBelow(rank, w.At(id).inputs[k], rank[id])
    {
    }
    assert w.Ranked(rank);
  }

  /** Everything not `loose` has exactly one reader, and what is loose has none. */
  ghost predicate Monogamous(w: Wiring, loose: set<Source>) {
    && (forall src | src in loose :: w.Has(src))
    && (forall src | w.Has(src) :: |Readers(w, src)| == if src in loose then 0 else 1)
  }

  /** What has been built: sound, in order, open at the end, everything read once but what is still loose. */
  ghost predicate Open(w: Wiring, loose: set<Source>) {
    w.Sound() && Layered(w) && Ended(w) && w.outputs == [] && Monogamous(w, loose)
  }

  /** A graph with more boxes on the end, whose branch ends are all new. */
  ghost predicate Grown(w: Wiring, more: Wiring) {
    && w.boxes <= more.boxes && w.inputs == more.inputs && w.branches <= more.branches
    && forall id: NodeId | |w.boxes| <= id && more.Live(id) && EndOf(more.At(id).kind).Some? ::
      w.branches <= EndOf(more.At(id).kind).value.0
  }

  function Members<T>(s: seq<T>): set<T> {
    set x | x in s
  }

  /** Whatever values solve the boxes from `base` on, what comes out is the term of what went in. */
  ghost predicate Carries(w: Wiring, base: nat, t: Tree, ins: seq<Source>, outs: seq<Source>) {
    && t.Ok() && |ins| == t.Effect().inputs && |outs| == t.Effect().outputs
    && forall rd: Reading, v: Valuation | SolvedFrom(w, base, rd, v) ::
      ValuesOf(v, outs) == ReadTerm(t, rd, ValuesOf(v, ins))
  }

  ghost predicate SolvedFrom(w: Wiring, base: nat, rd: Reading, v: Valuation) {
    forall id | base <= id && w.Live(id) :: BoxSolved(w.At(id), id, rd, v)
  }

  lemma SolvedWithin(w: Wiring, more: Wiring, base: nat, lower: nat, rd: Reading, v: Valuation)
    requires w.boxes <= more.boxes && lower <= base && SolvedFrom(more, lower, rd, v)
    ensures SolvedFrom(w, base, rd, v)
  {
    forall id | base <= id && w.Live(id) ensures BoxSolved(w.At(id), id, rd, v) {
      assert more.Live(id) && more.At(id) == w.At(id);
    }
  }

  lemma ValuesJoin(v: Valuation, a: seq<Source>, b: seq<Source>)
    ensures ValuesOf(v, a + b) == ValuesOf(v, a) + ValuesOf(v, b)
  {
  }

  // ---- one more box ----

  lemma WithBoxReaders(w: Wiring, box: Box, src: Source)
    ensures Readers(WithBox(w, box), src)
      == BoxReaders(w, src, |w.boxes|) + PortReaders(WithBox(w, box), src, |w.boxes|, |box.inputs|)
        + OutputReaders(w, src, |w.outputs|)
  {
    var more := WithBox(w, box);
    SameBoxReaders(w, more, src, |w.boxes|);
    SameOutputReaders(w, more, src, |w.outputs|);
    assert more.Live(|w.boxes|);
  }

  lemma {:induction false} SameBoxReaders(w: Wiring, more: Wiring, src: Source, n: nat)
    requires w.boxes <= more.boxes && n <= |w.boxes|
    ensures BoxReaders(w, src, n) == BoxReaders(more, src, n)
  {
    if n > 0 {
      SameBoxReaders(w, more, src, n - 1);
      if w.Live(n - 1) {
        SamePortReaders(w, more, src, n - 1, |w.At(n - 1).inputs|);
      }
    }
  }

  lemma {:induction false} SamePortReaders(w: Wiring, more: Wiring, src: Source, id: NodeId, n: nat)
    requires w.Live(id) && more.Live(id) && w.At(id) == more.At(id) && n <= |w.At(id).inputs|
    ensures PortReaders(w, src, id, n) == PortReaders(more, src, id, n)
  {
    if n > 0 {
      SamePortReaders(w, more, src, id, n - 1);
    }
  }

  lemma {:induction false} SameOutputReaders(w: Wiring, more: Wiring, src: Source, n: nat)
    requires w.outputs == more.outputs && n <= |w.outputs|
    ensures OutputReaders(w, src, n) == OutputReaders(more, src, n)
  {
    if n > 0 {
      SameOutputReaders(w, more, src, n - 1);
    }
  }

  /** A box reads each of its sources, all different, once. */
  lemma {:induction false} PortReadersCount(w: Wiring, src: Source, id: NodeId, n: nat)
    requires w.Live(id) && n <= |w.At(id).inputs| && Distinct(w.At(id).inputs)
    ensures |PortReaders(w, src, id, n)| == if src in w.At(id).inputs[..n] then 1 else 0
  {
    var ins := w.At(id).inputs;
    if n > 0 {
      PortReadersCount(w, src, id, n - 1);
      assert ins[..n] == ins[..n - 1] + [ins[n - 1]];
    }
  }

  lemma WithBoxMonogamous(w: Wiring, box: Box, rest: set<Source>)
    requires Open(w, rest + Members(box.inputs)) && rest !! Members(box.inputs) && Distinct(box.inputs)
    requires |box.inputs| == box.kind.Effect().inputs
    ensures var ports := Ports(|w.boxes|, box.kind.Effect().outputs);
      && Monogamous(WithBox(w, box), rest + Members(ports)) && rest !! Members(ports)
  {
    var more := WithBox(w, box);
    var id := |w.boxes|;
    var ports := Ports(id, box.kind.Effect().outputs);
    assert more.Live(id) && more.At(id) == box;
    assert forall src | src in rest :: w.Has(src);
    forall src | more.Has(src) ensures |Readers(more, src)| == if src in rest + Members(ports) then 0 else 1 {
      WithBoxReaders(w, box, src);
      PortReadersCount(more, src, id, |box.inputs|);
      assert box.inputs[..|box.inputs|] == box.inputs;
      if w.Has(src) {
        assert |Readers(w, src)| == |BoxReaders(w, src, id)|;
      } else {
        assert src == ports[src.port];
        UnbornUnread(w, src);
      }
    }
    forall src | src in Members(ports) ensures more.Has(src) && src !in rest {
    }
  }

  lemma UnbornUnread(w: Wiring, src: Source)
    requires w.Sound() && !w.Has(src)
    ensures Readers(w, src) == []
  {
    if Readers(w, src) != [] {
      ReadersHas(w, src, Readers(w, src)[0]);
    }
  }

  /** A box that is no branch end, or the first of its end of a branch that was minted here. */
  ghost predicate NewEnd(w: Wiring, kind: Kind) {
    EndOf(kind).None?
    || (EndOf(kind).value.0 < w.branches && forall id | w.Live(id) :: EndOf(w.At(id).kind) != EndOf(kind))
  }

  lemma WithBoxAt(w: Wiring, box: Box, id: NodeId)
    ensures WithBox(w, box).Live(id) <==> w.Live(id) || id == |w.boxes|
    ensures WithBox(w, box).Live(id) ==> WithBox(w, box).At(id) == if id == |w.boxes| then box else w.At(id)
  {
  }

  lemma WithBoxSound(w: Wiring, box: Box)
    requires w.Sound() && |box.inputs| == box.kind.Effect().inputs && forall k | 0 <= k < |box.inputs| ::
      w.Has(box.inputs[k])
    ensures WithBox(w, box).Sound()
  {
    var more := WithBox(w, box);
    forall id: NodeId | more.Live(id) ensures |more.At(id).inputs| == more.At(id).kind.Effect().inputs {
      WithBoxAt(w, box, id);
    }
    forall sink | more.Reads(sink).Some? ensures more.Has(more.Reads(sink).value) {
      if sink.Slot? && sink.node == |w.boxes| {
        assert w.Has(box.inputs[sink.port]);
      } else {
        assert w.Reads(sink) == more.Reads(sink);
      }
    }
  }

  lemma WithBoxLayered(w: Wiring, box: Box)
    requires Layered(w) && forall k | 0 <= k < |box.inputs| :: w.Has(box.inputs[k])
    ensures Layered(WithBox(w, box))
  {
    var more := WithBox(w, box);
    forall id: NodeId, k | more.Live(id) && 0 <= k < |more.At(id).inputs| && more.At(id).inputs[k].Port?
      ensures more.At(id).inputs[k].node < id
    {
      WithBoxAt(w, box, id);
    }
  }

  lemma WithBoxEnded(w: Wiring, box: Box)
    requires Ended(w) && NewEnd(w, box.kind)
    ensures Ended(WithBox(w, box))
  {
    var more := WithBox(w, box);
    forall id: NodeId | more.Live(id) && EndOf(more.At(id).kind).Some?
      ensures EndOf(more.At(id).kind).value.0 < w.branches
    {
      WithBoxAt(w, box, id);
    }
    forall a: NodeId, b: NodeId | more.Live(a) && more.Live(b) && EndOf(more.At(a).kind).Some?
      && EndOf(more.At(a).kind) == EndOf(more.At(b).kind)
      ensures a == b
    {
      WithBoxAt(w, box, a);
      WithBoxAt(w, box, b);
    }
  }

  lemma WithBoxOpen(w: Wiring, box: Box, rest: set<Source>)
    requires Open(w, rest + Members(box.inputs)) && rest !! Members(box.inputs) && Distinct(box.inputs)
    requires |box.inputs| == box.kind.Effect().inputs && NewEnd(w, box.kind)
    ensures var ports := Ports(|w.boxes|, box.kind.Effect().outputs);
      Open(WithBox(w, box), rest + Members(ports)) && rest !! Members(ports) && Distinct(ports)
  {
    WithBoxMonogamous(w, box, rest);
    LooseHeld(w, rest, box.inputs);
    hide Monogamous;
    WithBoxSound(w, box);
    WithBoxLayered(w, box);
    WithBoxEnded(w, box);
  }

  // ---- emitting a term ----

  /** A box placed on loose sources, the last of what is built. */
  ghost predicate Placed(w: Wiring, more: Wiring, box: Box, rest: set<Source>) {
    && more == WithBox(w, box) && |box.inputs| == box.kind.Effect().inputs
    && Distinct(Ports(|w.boxes|, box.kind.Effect().outputs))
      && rest !! Members(Ports(|w.boxes|, box.kind.Effect().outputs))
    && Open(more, rest + Members(Ports(|w.boxes|, box.kind.Effect().outputs)))
  }

  method Place(graph: Graph, kind: Kind, sources: seq<Source>, ghost rest: set<Source>) returns (ports: seq<Source>)
    requires graph.S().Linked() && Open(graph.W(), rest + Members(sources)) && rest !! Members(sources)
    requires Distinct(sources)
    requires |sources| == kind.Effect().inputs && NewEnd(graph.W(), kind)
    modifies graph
    ensures graph.S().Linked() && Placed(old(graph.W()), graph.W(), Box(kind, sources), rest)
    ensures ports == Ports(|old(graph.W()).boxes|, kind.Effect().outputs)
  {
    hide Store.Linked; hide Monogamous; hide Ended; hide Layered;
    ghost var w := graph.W();
    WithBoxOpen(w, Box(kind, sources), rest);
    LooseHeld(w, rest, sources);
    OpenBounded(w, rest + Members(sources));
    var id := graph.Add(kind, sources);
    ports := Ports(id, kind.Effect().outputs);
  }

  lemma LooseHeld(w: Wiring, rest: set<Source>, sources: seq<Source>)
    requires Open(w, rest + Members(sources))
    ensures forall k | 0 <= k < |sources| :: w.Has(sources[k])
  {
    forall k | 0 <= k < |sources| ensures w.Has(sources[k]) {
      assert sources[k] in Members(sources);
    }
  }

  lemma OpenBounded(w: Wiring, loose: set<Source>)
    requires Open(w, loose)
    ensures Bounded(w)
  {
  }

  /** The values a placed box leaves are what it answers. */
  lemma PlacedValues(w: Wiring, more: Wiring, box: Box, base: nat, rd: Reading, v: Valuation)
    requires WithBox(w, box).boxes <= more.boxes && base <= |w.boxes| && SolvedFrom(more, base, rd, v)
    ensures |box.inputs| == box.kind.Effect().inputs
    ensures ValuesOf(v, Ports(|w.boxes|, box.kind.Effect().outputs)) == BoxAnswer(box.kind, rd, ValuesOf(v, box.inputs))
  {
    assert more.Live(|w.boxes|) && more.At(|w.boxes|) == box;
  }

  /** A leaf of a term as the box it becomes. */
  function LeafKind(t: Tree): Kind
    requires t.Id? || t.Drop? || t.Copy? || t.Op? || t.Call?
  {
    match t
    case Id(n) => Kind.Id(n)
    case Drop(n) => Kind.Drop(n)
    case Copy(n) => Kind.Copy(n)
    case Op(prim) => Kind.Op(prim)
    case Call(target, arity) => Kind.Call(target, arity)
  }

  function NodeKind(t: Term): Kind
    requires t.Id? || t.Drop? || t.Copy? || t.Op? || t.Call?
  {
    match t
    case Id(n) => Kind.Id(n)
    case Drop(n) => Kind.Drop(n)
    case Copy(n) => Kind.Copy(n)
    case Op(prim) => Kind.Op(prim)
    case Call(target, arity) => Kind.Call(target, arity)
  }

  lemma LeafCarries(w: Wiring, t: Tree, ins: seq<Source>)
    requires t.Id? || t.Drop? || t.Copy? || t.Op? || t.Call?
    requires |ins| == t.Effect().inputs
    ensures LeafKind(t).Effect() == t.Effect() && EndOf(LeafKind(t)).None?
    ensures Carries(WithBox(w, Box(LeafKind(t), ins)), |w.boxes|, t, ins, Ports(|w.boxes|, t.Effect().outputs))
  {
    var box := Box(LeafKind(t), ins);
    var more := WithBox(w, box);
    forall rd: Reading, v: Valuation | SolvedFrom(more, |w.boxes|, rd, v)
      ensures ValuesOf(v, Ports(|w.boxes|, t.Effect().outputs)) == ReadTerm(t, rd, ValuesOf(v, ins))
    {
      PlacedValues(w, more, box, |w.boxes|, rd, v);
    }
  }

  lemma ComposeCarries(
    w: Wiring, mid: Wiring, more: Wiring, a: Tree, b: Tree, ins: seq<Source>, between: seq<Source>, outs: seq<Source>)
    requires w.boxes <= mid.boxes <= more.boxes && Tree.Compose(a, b).Ok()
    requires Carries(mid, |w.boxes|, a, ins, between) && Carries(more, |mid.boxes|, b, between, outs)
    ensures Carries(more, |w.boxes|, Tree.Compose(a, b), ins, outs)
  {
    forall rd: Reading, v: Valuation | SolvedFrom(more, |w.boxes|, rd, v)
      ensures ValuesOf(v, outs) == ReadTerm(Tree.Compose(a, b), rd, ValuesOf(v, ins))
    {
      SolvedWithin(mid, more, |w.boxes|, |w.boxes|, rd, v);
      SolvedWithin(more, more, |mid.boxes|, |w.boxes|, rd, v);
    }
  }

  lemma ParCarries(w: Wiring, mid: Wiring, more: Wiring, a: Tree, b: Tree,
    x: seq<Source>, y: seq<Source>, xs: seq<Source>, ys: seq<Source>)
    requires w.boxes <= mid.boxes <= more.boxes && Tree.Par(a, b).Ok()
    requires Carries(mid, |w.boxes|, a, x, xs) && Carries(more, |mid.boxes|, b, y, ys)
    ensures Carries(more, |w.boxes|, Tree.Par(a, b), x + y, xs + ys)
  {
    forall rd: Reading, v: Valuation | SolvedFrom(more, |w.boxes|, rd, v)
      ensures ValuesOf(v, xs + ys) == ReadTerm(Tree.Par(a, b), rd, ValuesOf(v, x + y))
    {
      SolvedWithin(mid, more, |w.boxes|, |w.boxes|, rd, v);
      SolvedWithin(more, more, |mid.boxes|, |w.boxes|, rd, v);
      ValuesJoin(v, x, y);
      ValuesJoin(v, xs, ys);
      assert (ValuesOf(v, x) + ValuesOf(v, y))[..|x|] == ValuesOf(v, x);
      assert (ValuesOf(v, x) + ValuesOf(v, y))[|x|..] == ValuesOf(v, y);
    }
  }

  lemma GrownJoins(a: Wiring, b: Wiring, c: Wiring)
    requires Grown(a, b) && Grown(b, c)
    ensures Grown(a, c)
  {
    forall id | |a.boxes| <= id && c.Live(id) && EndOf(c.At(id).kind).Some?
      ensures a.branches <= EndOf(c.At(id).kind).value.0
    {
      assert id < |b.boxes| ==> b.Live(id) && b.At(id) == c.At(id);
    }
  }

  /** What emitting a term on some loose sources leaves. */
  ghost predicate Emitted(w: Wiring, more: Wiring, t: Tree, ins: seq<Source>, outs: seq<Source>, rest: set<Source>) {
    && Grown(w, more) && Open(more, rest + Members(outs)) && rest !! Members(outs) && Distinct(outs)
    && Carries(more, |w.boxes|, t, ins, outs)
  }

  lemma EmittedParts(w: Wiring, more: Wiring, t: Tree, ins: seq<Source>, outs: seq<Source>, rest: set<Source>)
    requires Emitted(w, more, t, ins, outs, rest)
    ensures Grown(w, more) && Open(more, rest + Members(outs)) && rest !! Members(outs) && Distinct(outs)
    ensures Carries(more, |w.boxes|, t, ins, outs)
    ensures t.Ok() && |ins| == t.Effect().inputs && |outs| == t.Effect().outputs
  {
  }

  lemma CarriesShape(w: Wiring, base: nat, t: Tree, ins: seq<Source>, outs: seq<Source>)
    requires Carries(w, base, t, ins, outs)
    ensures t.Ok() && |ins| == t.Effect().inputs && |outs| == t.Effect().outputs
  {
  }

  lemma PlacedGrows(w: Wiring, more: Wiring, box: Box, rest: set<Source>)
    requires Placed(w, more, box, rest)
    requires EndOf(box.kind).Some? ==> w.branches <= EndOf(box.kind).value.0
    ensures Grown(w, more)
  {
  }

  lemma MembersJoin<T>(a: seq<T>, b: seq<T>)
    ensures Members(a + b) == Members(a) + Members(b)
  {
  }

  /** Two stretches of one list of different sources have nothing in common. */
  lemma DistinctSplits<T(!new)>(s: seq<T>, cut: nat)
    requires Distinct(s) && cut <= |s|
    ensures Distinct(s[..cut]) && Distinct(s[cut..]) && Members(s[..cut]) !! Members(s[cut..])
    ensures Members(s) == Members(s[..cut]) + Members(s[cut..])
  {
    assert s == s[..cut] + s[cut..];
    MembersJoin(s[..cut], s[cut..]);
  }

  lemma DistinctJoins<T(!new)>(a: seq<T>, b: seq<T>)
    requires Distinct(a) && Distinct(b) && Members(a) !! Members(b)
    ensures Distinct(a + b)
  {
    forall i, j | 0 <= i < j < |a + b| ensures (a + b)[i] != (a + b)[j] {
      assert i < |a| ==> (a + b)[i] in Members(a);
      assert j >= |a| ==> (a + b)[j] in Members(b);
    }
  }

  /** Side by side: two boxes of parts sharing no ports; the second takes the top. */
  method EmitPar(
    graph: Graph, terms: Context, deep: TermIndex, top: TermIndex, ins: seq<Source>, ghost rest: set<Source>,
    ghost t: Tree, ghost bound: nat)
    returns (outs: seq<Source>)
    requires terms.Valid() && terms.Has(deep) && terms.Has(top) && t == Tree.Par(terms.At(deep), terms.At(top))
    requires deep < bound && top < bound
    requires t.Ok()
    requires |ins| == t.Effect().inputs
    requires graph.S().Linked() && Open(graph.W(), rest + Members(ins)) && rest !! Members(ins) && Distinct(ins)
    modifies graph
    ensures graph.S().Linked() && Emitted(old(graph.W()), graph.W(), t, ins, outs, rest)
    decreases bound, 1
  {
    hide Store.Linked; hide Monogamous; hide Layered; hide Ended; hide Carries; hide TreeAt; hide Ordered; hide Members;
    hide Distinct; hide Open; hide Grown;
    ghost var w := graph.W();
    var cut := |ins| - terms.EffectAt(top).inputs;
    var below, above := ins[..cut], ins[cut..];
    DistinctSplits(ins, cut);
    assert rest + Members(ins) == (rest + Members(above)) + Members(below);
    var xs := Emit(graph, terms, deep, below, rest + Members(above));
    ghost var mid := graph.W();
    assert (rest + Members(above)) + Members(xs) == (rest + Members(xs)) + Members(above);
    var ys := Emit(graph, terms, top, above, rest + Members(xs));
    outs := xs + ys;
    MembersJoin(xs, ys);
    DistinctJoins(xs, ys);
    assert (rest + Members(xs)) + Members(ys) == rest + Members(outs);
    GrownJoins(w, mid, graph.W());
    GrownBoxes(w, mid);
    GrownBoxes(mid, graph.W());
    assert ins == below + above;
    ParCarries(w, mid, graph.W(), terms.At(deep), terms.At(top), below, above, xs, ys);
  }

  lemma GrownBoxes(w: Wiring, more: Wiring)
    requires Grown(w, more)
    ensures w.boxes <= more.boxes && w.branches <= more.branches && w.inputs == more.inputs
  {
  }

  // ---- a branch: two views of the stack, both arms, and a choice ----

  /** What the two arms of a branch are handed, and what the choice between them will read. */
  ghost predicate Viewed(
    w: Wiring, more: Wiring, branch: BranchId, cond: Source, stack: seq<Source>,
    chooses: Source, yes: seq<Source>, no: seq<Source>, rest: set<Source>)
  {
    && Grown(w, more) && more.branches == branch + 1 && |yes| == |no| == |stack|
    && Open(more, rest + Members([chooses] + yes + no)) && rest !! Members([chooses] + yes + no)
    && Distinct([chooses] + yes + no)
    && (forall id: NodeId | more.Live(id) :: EndOf(more.At(id).kind) != Some((branch, false)))
    && forall rd: Reading, v: Valuation | SolvedFrom(more, |w.boxes|, rd, v) ::
      ValueOf(v, chooses) == ValueOf(v, cond) && ValuesOf(v, yes) == ValuesOf(v, stack)
        && ValuesOf(v, no) == ValuesOf(v, stack)
  }

  /** Neither end of a branch is there yet. */
  ghost predicate Unpaired(w: Wiring, branch: BranchId) {
    forall id | w.Live(id) ::
      EndOf(w.At(id).kind) != Some((branch, true)) && EndOf(w.At(id).kind) != Some((branch, false))
  }

  lemma MintKeepsOpen(w: Wiring, loose: set<Source>, branch: BranchId)
    requires Open(w, loose) && branch == w.branches
    ensures Open(w.(branches := branch + 1), loose)
    ensures Unpaired(w, branch) && Unpaired(w.(branches := branch + 1), branch)
  {
    var more := w.(branches := branch + 1);
    forall src ensures Readers(more, src) == Readers(w, src) {
      SameBoxReaders(w, more, src, |w.boxes|);
      SameOutputReaders(w, more, src, |w.outputs|);
    }
    assert forall src :: more.Has(src) <==> w.Has(src);
    assert forall sink :: more.Reads(sink) == w.Reads(sink);
    hide Readers;
    forall id: NodeId ensures more.Live(id) == w.Live(id) && (w.Live(id) ==> more.At(id) == w.At(id)) {
    }
    assert more.Sound();
    assert Layered(more);
    assert Ended(more);
  }

  /** A branch id no other pair holds. */
  method NextBranch(graph: Graph, ghost loose: set<Source>) returns (branch: BranchId)
    requires graph.S().Linked() && Open(graph.W(), loose)
    modifies graph
    ensures graph.S().Linked() && branch == old(graph.branches)
    ensures graph.W() == old(graph.W()).(branches := branch + 1) && Open(graph.W(), loose)
    ensures Unpaired(old(graph.W()), branch) && Unpaired(graph.W(), branch)
  {
    ghost var w := graph.W();
    OpenBounded(w, loose);
    var names := graph.Mint([], 1);
    branch := names[0];
    MintKeepsOpen(w, loose, branch);
  }

  /** With no inputs to an arm, no fork is needed: the wiring is already as wanted. */
  lemma NoViews(w: Wiring, branch: BranchId, cond: Source, rest: set<Source>)
    requires branch == w.branches && Open(w.(branches := branch + 1), rest + Members([cond])) && rest !! Members([cond])
    requires Unpaired(w, branch)
    ensures Viewed(w, w.(branches := branch + 1), branch, cond, [], cond, [], [], rest)
  {
    assert [cond] + [] + [] == [cond];
    var more := w.(branches := branch + 1);
    forall id: NodeId | more.Live(id) ensures EndOf(more.At(id).kind) != Some((branch, false)) {
      assert w.Live(id) && w.At(id) == more.At(id);
    }
  }

  /** Otherwise both ends read the condition, and each arm has its own view of the stack. */
  method Views(
    graph: Graph, branch: BranchId, cond: Source, stack: seq<Source>, ghost rest: set<Source>, ghost w: Wiring)
    returns (chooses: Source, yes: seq<Source>, no: seq<Source>)
    requires graph.S().Linked() && graph.W() == w.(branches := branch + 1) && branch == w.branches && |stack| > 0
    requires Open(graph.W(), rest + Members(stack + [cond])) && rest !! Members(stack + [cond])
    requires Distinct(stack + [cond])
    requires Unpaired(w, branch)
    modifies graph
    ensures graph.S().Linked() && Viewed(w, graph.W(), branch, cond, stack, chooses, yes, no, rest)
  {
    hide Store.Linked; hide Monogamous; hide Layered; hide Ended; hide Open; hide Members;
    var n := |stack|;
    ghost var w0 := graph.W();
    DistinctSplits(stack + [cond], n);
    assert (stack + [cond])[..n] == stack && (stack + [cond])[n..] == [cond];
    assert rest + Members(stack + [cond]) == (rest + Members(stack)) + Members([cond]);
    var views := Place(graph, Kind.Copy(1), [cond], rest + Members(stack));
    ghost var w1 := graph.W();
    DistinctSplits(views, 1);
    assert views == [views[0]] + [views[1]] && views[..1] == [views[0]] && views[1..] == [views[1]];
    var takes := [views[0]] + stack;
    MembersJoin([views[0]], stack);
    DistinctJoins([views[0]], stack);
    assert (rest + Members(stack)) + Members(views) == (rest + Members([views[1]])) + Members(takes);
    ghost var kind := Kind.Fork(n, branch);
    CopyIsNoEnd(w, w0, w1, branch, cond);
    var blocks := Place(graph, Kind.Fork(n, branch), takes, rest + Members([views[1]]));
    chooses, yes, no := views[1], blocks[..n], blocks[n..];
    assert blocks == yes + no;
    MembersJoin([chooses], blocks);
    DistinctJoins([chooses], blocks);
    assert [chooses] + blocks == [chooses] + yes + no;
    assert (rest + Members([chooses])) + Members(blocks) == rest + Members([chooses] + yes + no);
    ViewsCarry(w, w0, w1, graph.W(), branch, cond, stack);
  }

  lemma CopyIsNoEnd(w: Wiring, w0: Wiring, w1: Wiring, branch: BranchId, cond: Source)
    requires w0 == w.(branches := branch + 1) && w1 == WithBox(w0, Box(Kind.Copy(1), [cond]))
    requires Unpaired(w, branch)
    ensures Unpaired(w1, branch) && forall n: nat :: NewEnd(w1, Kind.Fork(n, branch))
  {
    forall id: NodeId | w1.Live(id)
      ensures EndOf(w1.At(id).kind) != Some((branch, true)) && EndOf(w1.At(id).kind) != Some((branch, false))
    {
      WithBoxAt(w0, Box(Kind.Copy(1), [cond]), id);
      assert id < |w.boxes| ==> w.Live(id) && w0.At(id) == w.At(id);
    }
  }

  lemma ViewsCarry(w: Wiring, w0: Wiring, w1: Wiring, more: Wiring, branch: BranchId, cond: Source, stack: seq<Source>)
    requires w0 == w.(branches := branch + 1) && branch == w.branches && w1 == WithBox(w0, Box(Kind.Copy(1), [cond]))
    requires more == WithBox(w1, Box(Kind.Fork(|stack|, branch), [Port(|w.boxes|, 0)] + stack))
    requires Unpaired(w1, branch)
    ensures Grown(w, more) && more.branches == branch + 1
    ensures forall id: NodeId | more.Live(id) :: EndOf(more.At(id).kind) != Some((branch, false))
    ensures forall rd: Reading, v: Valuation | SolvedFrom(more, |w.boxes|, rd, v) ::
      && ValueOf(v, Port(|w.boxes|, 1)) == ValueOf(v, cond)
      && ValuesOf(v, Ports(|w.boxes| + 1, 2 * |stack|)[..|stack|]) == ValuesOf(v, stack)
      && ValuesOf(v, Ports(|w.boxes| + 1, 2 * |stack|)[|stack|..]) == ValuesOf(v, stack)
  {
    var n := |stack|;
    var fork := Box(Kind.Fork(n, branch), [Port(|w.boxes|, 0)] + stack);
    forall id: NodeId | more.Live(id) ensures EndOf(more.At(id).kind) != Some((branch, false)) {
      WithBoxAt(w1, fork, id);
    }
    forall id: NodeId | |w.boxes| <= id && more.Live(id) && EndOf(more.At(id).kind).Some?
      ensures branch <= EndOf(more.At(id).kind).value.0
    {
      WithBoxAt(w1, fork, id);
      WithBoxAt(w0, Box(Kind.Copy(1), [cond]), id);
    }
    forall rd: Reading, v: Valuation | SolvedFrom(more, |w.boxes|, rd, v)
      ensures ValueOf(v, Port(|w.boxes|, 1)) == ValueOf(v, cond)
      ensures ValuesOf(v, Ports(|w.boxes| + 1, 2 * n)[..n]) == ValuesOf(v, stack)
      ensures ValuesOf(v, Ports(|w.boxes| + 1, 2 * n)[n..]) == ValuesOf(v, stack)
    {
      PlacedValues(w0, more, Box(Kind.Copy(1), [cond]), |w.boxes|, rd, v);
      PlacedValues(w1, more, Box(Kind.Fork(n, branch), [Port(|w.boxes|, 0)] + stack), |w.boxes|, rd, v);
      var views, blocks := Ports(|w.boxes|, 2), Ports(|w.boxes| + 1, 2 * n);
      assert ValuesOf(v, views)[1] == ValueOf(v, views[1]);
      var seen := ValuesOf(v, stack);
      assert ValuesOf(v, [Port(|w.boxes|, 0)] + stack)[1..] == seen;
      assert ValuesOf(v, blocks) == seen + seen;
      assert ValuesOf(v, blocks[..n]) == ValuesOf(v, blocks)[..n]
        && ValuesOf(v, blocks[n..]) == ValuesOf(v, blocks)[n..];
    }
  }

  lemma GrownByBox(w: Wiring, mid: Wiring, box: Box)
    requires Grown(w, mid) && (EndOf(box.kind).Some? ==> w.branches <= EndOf(box.kind).value.0)
    ensures Grown(w, WithBox(mid, box))
  {
    var more := WithBox(mid, box);
    forall id: NodeId | |w.boxes| <= id && more.Live(id) && EndOf(more.At(id).kind).Some?
      ensures w.branches <= EndOf(more.At(id).kind).value.0
    {
      assert id < |mid.boxes| ==> mid.Live(id) && mid.At(id) == more.At(id);
    }
  }

  /** Nothing in the arms is an end of the branch they are arms of. */
  lemma ArmsAreNoEnd(w1: Wiring, w2: Wiring, w3: Wiring, branch: BranchId)
    requires Grown(w1, w2) && Grown(w2, w3) && w1.branches == branch + 1
    requires forall id | w1.Live(id) :: EndOf(w1.At(id).kind) != Some((branch, false))
    ensures forall n: nat :: NewEnd(w3, Kind.Select(n, branch))
  {
    GrownJoins(w1, w2, w3);
    forall id: NodeId | w3.Live(id) ensures EndOf(w3.At(id).kind) != Some((branch, false)) {
      assert id < |w1.boxes| ==> w1.Live(id) && w1.At(id) == w3.At(id);
    }
  }

  lemma ArmsCarry(
    w: Wiring, w1: Wiring, w2: Wiring, w3: Wiring, a: Tree, b: Tree, branch: BranchId, cond: Source, stack: seq<Source>,
    chooses: Source, yes: seq<Source>, no: seq<Source>, left: seq<Source>, right: seq<Source>, rest: set<Source>)
    requires Viewed(w, w1, branch, cond, stack, chooses, yes, no, rest) && Tree.Branch(a, b).Ok()
    requires w1.boxes <= w2.boxes <= w3.boxes && |stack| == a.Effect().inputs
    requires Carries(w2, |w1.boxes|, a, yes, left) && Carries(w3, |w2.boxes|, b, no, right)
    ensures var box := Box(Kind.Select(a.Effect().outputs, branch), [chooses] + left + right);
      Carries(WithBox(w3, box), |w.boxes|, Tree.Branch(a, b), stack + [cond], Ports(|w3.boxes|, a.Effect().outputs))
  {
    hide Open;
    var n := a.Effect().outputs;
    var box := Box(Kind.Select(n, branch), [chooses] + left + right);
    var more := WithBox(w3, box);
    forall rd: Reading, v: Valuation | SolvedFrom(more, |w.boxes|, rd, v)
      ensures ValuesOf(v, Ports(|w3.boxes|, n)) == ReadTerm(Tree.Branch(a, b), rd, ValuesOf(v, stack + [cond]))
    {
      SolvedWithin(w1, more, |w.boxes|, |w.boxes|, rd, v);
      SolvedWithin(w2, more, |w1.boxes|, |w.boxes|, rd, v);
      SolvedWithin(w3, more, |w2.boxes|, |w.boxes|, rd, v);
      PlacedValues(w3, more, box, |w.boxes|, rd, v);
      ChosenValue(v, rd, a, b, branch, chooses, left, right, ValuesOf(v, stack), ValueOf(v, cond));
      ValuesJoin(v, stack, [cond]);
    }
  }

  lemma ChosenValue(
    v: Valuation, rd: Reading, a: Tree, b: Tree, branch: BranchId, chooses: Source, left: seq<Source>,
    right: seq<Source>,
    s: seq<Value>, cond: Value)
    requires Tree.Branch(a, b).Ok() && |s| == a.Effect().inputs && ValueOf(v, chooses) == cond
    requires ValuesOf(v, left) == ReadTerm(a, rd, s) && ValuesOf(v, right) == ReadTerm(b, rd, s)
    ensures BoxAnswer(Kind.Select(a.Effect().outputs, branch), rd, ValuesOf(v, [chooses] + left + right))
      == ReadTerm(Tree.Branch(a, b), rd, s + [cond])
  {
    hide ReadTerm; hide BoxAnswer; hide ValuesOf;
    var l, r := ReadTerm(a, rd, s), ReadTerm(b, rd, s);
    ValuesJoin(v, [chooses], left);
    ValuesJoin(v, [chooses] + left, right);
    OneValue(v, chooses);
    Selected(a.Effect().outputs, branch, rd, cond, l, r);
    BranchReads(a, b, rd, s, cond);
  }

  lemma OneValue(v: Valuation, src: Source)
    ensures ValuesOf(v, [src]) == [ValueOf(v, src)]
  {
  }

  lemma Selected(n: nat, branch: BranchId, rd: Reading, cond: Value, l: seq<Value>, r: seq<Value>)
    requires |l| == |r| == n
    ensures BoxAnswer(Kind.Select(n, branch), rd, [cond] + l + r) == if cond.Truthy() then l else r
  {
    var args := [cond] + l + r;
    assert args[1..1 + n] == l && args[1 + n..] == r;
  }

  lemma BranchReads(a: Tree, b: Tree, rd: Reading, s: seq<Value>, cond: Value)
    requires Tree.Branch(a, b).Ok() && |s| == a.Effect().inputs
    ensures ReadTerm(Tree.Branch(a, b), rd, s + [cond]) == if cond.Truthy()
      then ReadTerm(a, rd, s) else ReadTerm(b, rd, s)
  {
    assert (s + [cond])[..|s|] == s;
  }

  lemma ViewedParts(
    w: Wiring, more: Wiring, branch: BranchId, cond: Source, stack: seq<Source>,
    chooses: Source, yes: seq<Source>, no: seq<Source>, rest: set<Source>)
    requires Viewed(w, more, branch, cond, stack, chooses, yes, no, rest)
    ensures Grown(w, more) && more.branches == branch + 1 && |yes| == |no| == |stack|
    ensures Open(more, rest + Members([chooses] + yes + no)) && rest !! Members([chooses] + yes + no)
    ensures Distinct([chooses] + yes + no)
    ensures forall id | more.Live(id) :: EndOf(more.At(id).kind) != Some((branch, false))
  {
  }

  /** Both arms into the one graph, and the choice between their answers. */
  method EmitArms(
    graph: Graph, terms: Context, ifTrue: TermIndex, ifFalse: TermIndex, branch: BranchId, ghost cond: Source,
    ghost stack: seq<Source>, chooses: Source, yes: seq<Source>, no: seq<Source>, ghost rest: set<Source>,
    ghost w: Wiring, ghost bound: nat)
    returns (outs: seq<Source>)
    requires terms.Valid() && terms.Has(ifTrue) && terms.Has(ifFalse) && ifTrue < bound && ifFalse < bound
    requires Tree.Branch(terms.At(ifTrue), terms.At(ifFalse)).Ok() && |stack| == terms.At(ifTrue).Effect().inputs
    requires graph.S().Linked() && branch == w.branches
    requires Viewed(w, graph.W(), branch, cond, stack, chooses, yes, no, rest)
    modifies graph
    ensures graph.S().Linked()
    ensures Emitted(w, graph.W(), Tree.Branch(terms.At(ifTrue), terms.At(ifFalse)), stack + [cond], outs, rest)
    decreases bound, 0
  {
    ghost var (a, b) := (terms.At(ifTrue), terms.At(ifFalse));
    BranchShape(a, b);
    hide Store.Linked; hide Monogamous; hide Layered; hide Ended; hide Carries; hide TreeAt; hide Ordered; hide Members;
    hide Distinct; hide Open; hide Tree.Ok; hide Tree.Effect; hide Viewed; hide Grown; hide Placed; hide Wiring.Sound;
    ghost var w1 := graph.W();
    ViewedParts(w, w1, branch, cond, stack, chooses, yes, no, rest);
    ViewsApart(chooses, yes, no, rest);
    hide Emitted;
    ghost var held := rest + Members([chooses]);
    var left := Emit(graph, terms, ifTrue, yes, held + Members(no));
    ghost var w2 := graph.W();
    EmittedParts(w1, w2, a, yes, left, held + Members(no));
    assert (held + Members(no)) + Members(left) == (held + Members(left)) + Members(no);
    var right := Emit(graph, terms, ifFalse, no, held + Members(left));
    ghost var w3 := graph.W();
    EmittedParts(w2, w3, b, no, right, held + Members(left));
    AnswersApart(chooses, left, right, rest);
    ArmsAreNoEnd(w1, w2, w3, branch);
    var n := terms.EffectAt(ifTrue).outputs;
    outs := Place(graph, Kind.Select(n, branch), [chooses] + left + right, rest);
    ArmsEmitted(w, w1, w2, w3, graph.W(), a, b, branch, cond, stack, chooses, yes, no, left, right, rest);
  }

  /** Views, arms and choice together are the branch emitted. */
  lemma ArmsEmitted(
    w: Wiring, w1: Wiring, w2: Wiring, w3: Wiring, more: Wiring, a: Tree, b: Tree, branch: BranchId, cond: Source,
    stack: seq<Source>, chooses: Source, yes: seq<Source>, no: seq<Source>, left: seq<Source>, right: seq<Source>,
    rest: set<Source>)
    requires branch == w.branches && Tree.Branch(a, b).Ok() && |stack| == a.Effect().inputs
    requires Viewed(w, w1, branch, cond, stack, chooses, yes, no, rest)
    requires Grown(w1, w2) && Grown(w2, w3)
    requires Carries(w2, |w1.boxes|, a, yes, left) && Carries(w3, |w2.boxes|, b, no, right)
    requires Placed(w3, more, Box(Kind.Select(a.Effect().outputs, branch), [chooses] + left + right), rest)
    ensures Emitted(w, more, Tree.Branch(a, b), stack + [cond], Ports(|w3.boxes|, a.Effect().outputs), rest)
  {
    hide Carries; hide Open; hide Tree.Ok; hide Tree.Effect; hide Viewed; hide Grown; hide Distinct; hide Members;
    var box := Box(Kind.Select(a.Effect().outputs, branch), [chooses] + left + right);
    ViewedParts(w, w1, branch, cond, stack, chooses, yes, no, rest);
    GrownJoins(w, w1, w2);
    GrownJoins(w, w2, w3);
    GrownBoxes(w1, w2);
    GrownBoxes(w2, w3);
    GrownByBox(w, w3, box);
    ArmsCarry(w, w1, w2, w3, a, b, branch, cond, stack, chooses, yes, no, left, right, rest);
  }

  lemma ViewsApart(chooses: Source, yes: seq<Source>, no: seq<Source>, rest: set<Source>)
    requires Distinct([chooses] + yes + no) && rest !! Members([chooses] + yes + no)
    ensures Distinct(yes) && Distinct(no) && chooses !in rest
    ensures rest + Members([chooses] + yes + no) == (rest + Members([chooses]) + Members(no)) + Members(yes)
    ensures (rest + Members([chooses]) + Members(no)) !! Members(yes)
    ensures (rest + Members([chooses])) !! Members(no)
  {
    var all := [chooses] + yes + no;
    DistinctSplits(all, 1 + |yes|);
    assert all[..1 + |yes|] == [chooses] + yes && all[1 + |yes|..] == no;
    DistinctSplits([chooses] + yes, 1);
    assert ([chooses] + yes)[..1] == [chooses] && ([chooses] + yes)[1..] == yes;
    assert chooses in Members(all) by { assert all[0] == chooses; }
  }

  lemma AnswersApart(chooses: Source, left: seq<Source>, right: seq<Source>, rest: set<Source>)
    requires Distinct(left) && Distinct(right) && chooses !in rest
    requires (rest + Members([chooses])) !! Members(left)
    requires (rest + Members([chooses]) + Members(left)) !! Members(right)
    ensures Distinct([chooses] + left + right) && rest !! Members([chooses] + left + right)
    ensures (rest + Members([chooses]) + Members(left)) + Members(right) == rest + Members([chooses] + left + right)
  {
    DistinctJoins([chooses], left);
    MembersJoin([chooses], left);
    DistinctJoins([chooses] + left, right);
    MembersJoin([chooses] + left, right);
  }

  /** The condition set aside, both arms emitted on their own views, and one of the two answers kept. */
  method EmitBranch(
    graph: Graph, terms: Context, ifTrue: TermIndex, ifFalse: TermIndex, ins: seq<Source>, ghost rest: set<Source>,
    ghost t: Tree, ghost bound: nat)
    returns (outs: seq<Source>)
    requires ifTrue < bound && ifFalse < bound
    requires terms.Valid() && terms.Has(ifTrue) && terms.Has(ifFalse)
    requires t == Tree.Branch(terms.At(ifTrue), terms.At(ifFalse)) && t.Ok() && |ins| == t.Effect().inputs
    requires graph.S().Linked() && Open(graph.W(), rest + Members(ins)) && rest !! Members(ins) && Distinct(ins)
    modifies graph
    ensures graph.S().Linked() && Emitted(old(graph.W()), graph.W(), t, ins, outs, rest)
    decreases bound, 1
  {
    hide Store.Linked; hide Monogamous; hide Layered; hide Ended; hide Carries; hide TreeAt; hide Ordered; hide Members;
    hide Distinct; hide Open; hide Viewed; hide Emitted;
    ghost var w := graph.W();
    var top := |ins| - 1;
    var cond, stack := ins[top], ins[..top];
    assert ins == stack + [cond];
    var branch := NextBranch(graph, rest + Members(ins));
    var chooses, yes, no := cond, [], [];
    if stack == [] {
      assert ins == [cond];
      NoViews(w, branch, cond, rest);
    } else {
      chooses, yes, no := Views(graph, branch, cond, stack, rest, w);
    }
    outs := EmitArms(graph, terms, ifTrue, ifFalse, branch, cond, stack, chooses, yes, no, rest, w, bound);
  }

  /** Emits `terms.At(term)` reading `stack`, and returns where its results can be read. */
  method Emit(graph: Graph, terms: Context, term: TermIndex, ins: seq<Source>, ghost rest: set<Source>)
    returns (outs: seq<Source>)
    requires terms.Valid() && terms.Has(term) && terms.At(term).Ok() && |ins| == terms.At(term).Effect().inputs
    requires graph.S().Linked() && Open(graph.W(), rest + Members(ins)) && rest !! Members(ins) && Distinct(ins)
    modifies graph
    ensures graph.S().Linked() && Emitted(old(graph.W()), graph.W(), terms.At(term), ins, outs, rest)
    decreases term, 2
  {
    hide Store.Linked; hide Monogamous; hide Layered; hide Ended; hide Carries; hide TreeAt; hide Ordered; hide Members;
    terms.NodeAt(term);
    ghost var w := graph.W();
    match terms.terms[term] {
      case Compose(first, second) =>
        var between := Emit(graph, terms, first, ins, rest);
        ghost var mid := graph.W();
        CarriesShape(mid, |w.boxes|, terms.At(first), ins, between);
        outs := Emit(graph, terms, second, between, rest);
        GrownJoins(w, mid, graph.W());
        ComposeCarries(w, mid, graph.W(), terms.At(first), terms.At(second), ins, between, outs);
      case Par(deep, top) =>
        outs := EmitPar(graph, terms, deep, top, ins, rest, terms.At(term), term);
      case Branch(ifTrue, ifFalse) =>
        outs := EmitBranch(graph, terms, ifTrue, ifFalse, ins, rest, terms.At(term), term);
      case _ =>
        LeafCarries(w, terms.At(term), ins);
        outs := Place(graph, NodeKind(terms.terms[term]), ins, rest);
        PlacedGrows(w, graph.W(), Box(LeafKind(terms.At(term)), ins), rest);
    }
  }

  // ---- the whole term ----

  /** Two ends written down everywhere, one reader for every port, and the meaning of the term. */
  ghost predicate BuiltFrom(w: Wiring, t: Tree) {
    && t.Ok() && w.Whole() && Ended(w) && w.Effect() == t.Effect()
    && (forall src | w.Has(src) :: |Readers(w, src)| == 1)
    && forall rd: Reading, env: seq<Value> | |env| == w.inputs :: Meaning(w, rd, env) == ReadTerm(t, rd, env)
  }

  /** The graph of a term. */
  method Build(terms: Context, term: TermIndex) returns (graph: Graph)
    requires terms.Valid() && terms.Has(term) && terms.At(term).Ok()
    ensures fresh(graph) && graph.S().Linked() && BuiltFrom(graph.W(), terms.At(term))
  {
    hide Store.Linked; hide Monogamous; hide Layered; hide Ended; hide Carries; hide TreeAt; hide Ordered;
    var n := terms.EffectAt(term).inputs;
    graph := new Graph.Empty(n);
    ghost var w := graph.W();
    EmptyOpen(n);
    var outs := Emit(graph, terms, term, Inputs(n), {});
    ghost var open := graph.W();
    assert {} + Members(outs) == Members(outs);
    LooseHeld(open, {}, outs);
    graph.Close(outs);
    Closed(w, open, terms.At(term), outs);
  }

  lemma EmptyOpen(n: nat)
    ensures Open(Wiring([], n, [], 0), {} + Members(Inputs(n))) && Distinct(Inputs(n)) && {} !! Members(Inputs(n))
  {
    var w := Wiring([], n, [], 0);
    forall src | w.Has(src) ensures Readers(w, src) == [] && src in Members(Inputs(n)) {
      assert src == Inputs(n)[src.i];
    }
    forall src | src in Members(Inputs(n)) ensures w.Has(src) {
      var k :| 0 <= k < n && Inputs(n)[k] == src;
    }
  }

  /** Leaving what is loose at the boundary gives each of those its one reader. */
  lemma Closed(w: Wiring, open: Wiring, t: Tree, outs: seq<Source>)
    requires w == Wiring([], t.Effect().inputs, [], 0)
    requires Emitted(w, open, t, Inputs(t.Effect().inputs), outs, {})
    ensures BuiltFrom(open.(outputs := outs), t)
  {
    hide Carries; hide Monogamous;
    var closed := open.(outputs := outs);
    assert {} + Members(outs) == Members(outs);
    LooseHeld(open, {}, outs);
    CarriesShape(open, 0, t, Inputs(t.Effect().inputs), outs);
    assert forall src :: closed.Has(src) <==> open.Has(src);
    forall sink | closed.Reads(sink).Some? ensures closed.Has(closed.Reads(sink).value) {
      if sink.Slot? {
        assert open.Reads(sink) == closed.Reads(sink);
      }
    }
    forall id: NodeId ensures closed.Live(id) == open.Live(id) && (open.Live(id) ==> closed.At(id) == open.At(id)) {
    }
    assert closed.Sound();
    assert Layered(closed);
    assert Ended(closed);
    LayeredIsAcyclic(closed);
    forall src | closed.Has(src) ensures |Readers(closed, src)| == 1 {
      ClosedReaders(open, outs, src);
    }
    forall rd: Reading, env: seq<Value> | |env| == closed.inputs
      ensures Meaning(closed, rd, env) == ReadTerm(t, rd, env)
    {
      ClosedMeaning(open, t, outs, rd, env);
    }
  }

  lemma ClosedReaders(open: Wiring, outs: seq<Source>, src: Source)
    requires Open(open, Members(outs)) && Distinct(outs) && open.Has(src)
    ensures |Readers(open.(outputs := outs), src)| == 1
  {
    var closed := open.(outputs := outs);
    SameBoxReaders(open, closed, src, |open.boxes|);
    OutputReadersCount(closed, src, |outs|);
    assert outs[..|outs|] == outs;
    assert |Readers(open, src)| == |BoxReaders(open, src, |open.boxes|)|;
  }

  lemma {:induction false} OutputReadersCount(w: Wiring, src: Source, n: nat)
    requires n <= |w.outputs| && Distinct(w.outputs)
    ensures |OutputReaders(w, src, n)| == if src in w.outputs[..n] then 1 else 0
  {
    if n > 0 {
      OutputReadersCount(w, src, n - 1);
      assert w.outputs[..n] == w.outputs[..n - 1] + [w.outputs[n - 1]];
    }
  }

  lemma ClosedMeaning(open: Wiring, t: Tree, outs: seq<Source>, rd: Reading, env: seq<Value>)
    requires open.(outputs := outs).Whole() && |env| == open.inputs == t.Effect().inputs
    requires Carries(open, 0, t, Inputs(open.inputs), outs)
    ensures Meaning(open.(outputs := outs), rd, env) == ReadTerm(t, rd, env)
  {
    var closed := open.(outputs := outs);
    var v := HasSolution(closed, rd, env);
    MeaningIs(closed, rd, env, v);
    forall id | 0 <= id && open.Live(id) ensures BoxSolved(open.At(id), id, rd, v) {
      assert closed.Live(id) && closed.At(id) == open.At(id);
    }
    assert SolvedFrom(open, 0, rd, v);
  }
}
