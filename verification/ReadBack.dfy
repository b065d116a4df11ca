/** From a graph to a term: boxes in scheduled order on one stack, what each reads routed to it first. */
module ReadBack {
  import opened Wrappers
  import opened Values
  import opened Prims
  import opened Terms
  import opened Spines
  import opened Wirings
  import opened Graphs
  import opened Routing
  import Scheduling

  // ---- the term one box stands for ----

  /** A term that answers what a box of this kind answers. */
  ghost predicate StandsFor(t: Tree, kind: Kind) {
    && t.Ok() && t.Effect() == kind.Effect()
    && forall rd: Reading, args: seq<Value> | |args| == kind.Effect().inputs ::
      ReadTerm(t, rd, args) == BoxAnswer(kind, rd, args)
  }

  /** A term that rotates `width` wires by one place, as swaps from the bottom up. */
  method Hoist(terms: Context, width: nat) returns (i: TermIndex)
    requires terms.Valid() && width > 0
    modifies terms
    ensures terms.Grew() && terms.Has(i) && Hoists(terms.At(i), width)
  {
    hide TreeAt; hide Ordered; hide Tree.Effect; hide Tree.Ok; hide ReadTerm; hide Hoisted;
    var chain: Option<TermIndex> := None;
    for below: nat := 0 to width - 1
      invariant terms.Grew()
      invariant chain.None? <==> below == 0
      invariant chain.Some? ==> terms.Has(chain.value) && Hoisted(terms.At(chain.value), width, below)
    {
      var step := Crossing(terms, width, below);
      ghost var row := terms.At(step);
      if chain.None? {
        FirstCrossing(row, width);
        chain := Some(step);
      } else {
        ghost var before := terms.At(chain.value);
        NextCrossing(before, row, width, below);
        HoistedShape(before, width, below);
        var made := terms.Compose(chain.value, step);
        chain := Some(made.value);
      }
    }
    if chain.Some? {
      i := chain.value;
      HoistedAll(terms.At(i), width);
    } else {
      i := terms.Push(Term.Id(width));
      IdHoists();
    }
  }

  /** A row that crosses one pair and passes the rest. */
  method Crossing(terms: Context, width: nat, below: nat) returns (step: TermIndex)
    requires terms.Valid() && below + 1 < width
    modifies terms
    ensures terms.Grew() && terms.Has(step) && Lifts(terms.At(step), width, below)
  {
    hide TreeAt; hide Ordered; hide Tree.Effect; hide Tree.Ok; hide Lifts;
    var crossing := terms.Push(Term.Op(Prim.Swap));
    step := terms.Under(crossing, below);
    var above := width - below - 2;
    if above > 0 {
      var untouched := terms.Push(Term.Id(above));
      step := terms.Push(Term.Par(step, untouched));
    }
    CrossingLifts(width, below, terms.At(step));
  }

  /** The wire that was `below` places up, lifted one place. */
  function Lifted(s: seq<Value>, at: nat): seq<Value>
    requires at + 1 < |s|
  {
    s[at := s[at + 1]][at + 1 := s[at]]
  }

  /** The deepest wire at height `k`, the ones it passed each one lower. */
  function Raised(s: seq<Value>, k: nat): seq<Value>
    requires k < |s|
  {
    s[1..k + 1] + [s[0]] + s[k + 1..]
  }

  ghost predicate Hoisted(t: Tree, width: nat, k: nat) {
    && t.Ok() && t.Effect() == Arity(width, width) && k < width
    && forall rd: Reading, s: seq<Value> | |s| == width :: ReadTerm(t, rd, s) == Raised(s, k)
  }

  ghost predicate Hoists(t: Tree, width: nat) {
    && t.Ok() && t.Effect() == Arity(width, width)
    && forall rd: Reading, s: seq<Value> | |s| == width && width > 0 :: ReadTerm(t, rd, s) == s[1..] + [s[0]]
  }

  /** A row with one crossing in it. */
  ghost predicate Lifts(t: Tree, width: nat, at: nat) {
    && t.Ok() && t.Effect() == Arity(width, width) && at + 1 < width
    && forall rd: Reading, s: seq<Value> | |s| == width :: ReadTerm(t, rd, s) == Lifted(s, at)
  }

  lemma CrossingLifts(width: nat, at: nat, t: Tree)
    requires at + 1 < width
    requires t == CrossingRow(width, at)
    ensures Lifts(t, width, at)
  {
    hide ReadTerm; hide Tree.Ok; hide Tree.Effect; hide Lifted;
    var under, above := Widened(Tree.Op(Prim.Swap), at), width - at - 2;
    UnderCrosses(at, Reading(imap[], imap[]), Units(at), UNIT, UNIT);
    ParShape(under, Tree.Id(above));
    IdShape(above);
    forall rd: Reading, s: seq<Value> | |s| == width ensures ReadTerm(t, rd, s) == Lifted(s, at) {
      CrossingReads(width, at, rd, s);
    }
  }

  lemma IdShape(n: nat)
    ensures Tree.Id(n).Ok() && Tree.Id(n).Effect() == Arity(n, n)
    ensures Tree.Drop(n).Ok() && Tree.Drop(n).Effect() == Arity(n, 0)
  {
  }

  function CrossingRow(width: nat, at: nat): Tree
    requires at + 1 < width
  {
    var under := Widened(Tree.Op(Prim.Swap), at);
    if width - at - 2 > 0 then Tree.Par(under, Tree.Id(width - at - 2)) else under
  }

  lemma CrossingReads(width: nat, at: nat, rd: Reading, s: seq<Value>)
    requires at + 1 < width == |s| && CrossingRow(width, at).Ok() && CrossingRow(width, at).Effect().inputs == width
    ensures ReadTerm(CrossingRow(width, at), rd, s) == Lifted(s, at)
  {
    hide Tree.Ok; hide Tree.Effect; hide ReadTerm;
    var under, above := Widened(Tree.Op(Prim.Swap), at), width - at - 2;
    var low, high := s[..at], s[at + 2..];
    UnderCrosses(at, rd, low, s[at], s[at + 1]);
    assert s == (low + [s[at], s[at + 1]]) + high;
    assert (low + [s[at + 1], s[at]]) + high == Lifted(s, at);
    if above > 0 {
      IdShape(above);
      ReadsBeside(under, Tree.Id(above), rd, low + [s[at], s[at + 1]], high);
      IdReads(above, rd, high);
    } else {
      assert high == [];
      assert (low + [s[at], s[at + 1]]) + [] == low + [s[at], s[at + 1]];
      assert (low + [s[at + 1], s[at]]) + [] == low + [s[at + 1], s[at]];
    }
  }

  lemma IdReads(n: nat, rd: Reading, s: seq<Value>)
    requires |s| == n
    ensures ReadTerm(Tree.Id(n), rd, s) == s && ReadTerm(Tree.Drop(n), rd, s) == []
  {
  }

  lemma UnderCrosses(n: nat, rd: Reading, low: seq<Value>, x: Value, y: Value)
    requires |low| == n
    ensures var t := Widened(Tree.Op(Prim.Swap), n);
      t.Ok() && t.Effect() == Arity(n + 2, n + 2) && ReadTerm(t, rd, low + [x, y]) == low + [y, x]
  {
    if n == 0 {
      assert low + [x, y] == [x, y] && low + [y, x] == [y, x];
    } else {
      ReadsBeside(Tree.Id(n), Tree.Op(Prim.Swap), rd, low, [x, y]);
    }
  }

  lemma FirstCrossing(row: Tree, width: nat)
    requires Lifts(row, width, 0)
    ensures Hoisted(row, width, 1)
  {
    forall s: seq<Value> | |s| == width ensures Lifted(s, 0) == Raised(s, 1) {
    }
  }

  lemma NextCrossing(t: Tree, row: Tree, width: nat, k: nat)
    requires Hoisted(t, width, k) && Lifts(row, width, k)
    ensures Hoisted(Tree.Compose(t, row), width, k + 1)
  {
    hide Raised; hide Lifted;
    forall rd: Reading, s: seq<Value> | |s| == width
      ensures ReadTerm(Tree.Compose(t, row), rd, s) == Raised(s, k + 1)
    {
      LiftedOnce(s, k);
      assert ReadTerm(t, rd, s) == Raised(s, k);
      assert ReadTerm(row, rd, Raised(s, k)) == Lifted(Raised(s, k), k);
    }
  }

  lemma LiftedOnce(s: seq<Value>, k: nat)
    requires k + 1 < |s|
    ensures |Raised(s, k)| == |s| && Lifted(Raised(s, k), k) == Raised(s, k + 1)
  {
  }

  lemma HoistedShape(t: Tree, width: nat, k: nat)
    requires Hoisted(t, width, k)
    ensures t.Effect() == Arity(width, width)
  {
  }

  lemma HoistedAll(t: Tree, width: nat)
    requires width > 0 && Hoisted(t, width, width - 1)
    ensures Hoists(t, width)
  {
    forall s: seq<Value> | |s| == width ensures Raised(s, width - 1) == s[1..] + [s[0]] {
    }
  }

  lemma IdHoists()
    ensures Hoists(Tree.Id(1), 1)
  {
    forall s: seq<Value> | |s| == 1 ensures s[1..] + [s[0]] == s {
    }
  }

  lemma ForkStands(n: nat, branch: BranchId)
    ensures StandsFor(Tree.Par(Tree.Drop(1), Tree.Copy(n)), Kind.Fork(n, branch))
  {
    var t := Tree.Par(Tree.Drop(1), Tree.Copy(n));
    ParShape(Tree.Drop(1), Tree.Copy(n));
    forall rd: Reading, args: seq<Value> | |args| == n + 1
      ensures ReadTerm(t, rd, args) == BoxAnswer(Kind.Fork(n, branch), rd, args)
    {
      assert args == [args[0]] + args[1..];
      ReadsBeside(Tree.Drop(1), Tree.Copy(n), rd, [args[0]], args[1..]);
    }
  }

  /** The condition up to the top, and one block of the two kept. */
  function Choice(up: Tree, n: nat): Tree {
    Tree.Compose(up, Tree.Branch(Arms(n).0, Arms(n).1))
  }

  lemma ChoiceStands(up: Tree, n: nat, branch: BranchId)
    requires Hoists(up, 2 * n + 1)
    ensures StandsFor(Choice(up, n), Kind.Select(n, branch))
  {
    hide ReadTerm; hide BoxAnswer; hide Tree.Ok; hide Tree.Effect;
    ChoiceShape(up, n);
    assert Choice(up, n).Effect() == Kind.Select(n, branch).Effect();
    forall rd: Reading, args: seq<Value> | |args| == 2 * n + 1
      ensures ReadTerm(Choice(up, n), rd, args) == BoxAnswer(Kind.Select(n, branch), rd, args)
    {
      ChoiceReads(up, n, branch, rd, args);
    }
  }

  function Arms(n: nat): (Tree, Tree) {
    (Tree.Par(Tree.Id(n), Tree.Drop(n)), Tree.Par(Tree.Drop(n), Tree.Id(n)))
  }

  lemma ChoiceShape(up: Tree, n: nat)
    requires up.Ok() && up.Effect() == Arity(2 * n + 1, 2 * n + 1)
    ensures Tree.Branch(Arms(n).0, Arms(n).1).Ok() && Tree.Branch(Arms(n).0, Arms(n).1).Effect() == Arity(2 * n + 1, n)
    ensures Arms(n).0.Effect() == Arity(2 * n, n)
    ensures Choice(up, n).Ok() && Choice(up, n).Effect() == Arity(2 * n + 1, n)
  {
    hide Tree.Ok; hide Tree.Effect;
    IdShape(n);
    ParShape(Tree.Id(n), Tree.Drop(n));
    ParShape(Tree.Drop(n), Tree.Id(n));
    BranchShape(Arms(n).0, Arms(n).1);
    ComposeShape(up, Tree.Branch(Arms(n).0, Arms(n).1));
  }

  lemma ChoiceReads(up: Tree, n: nat, branch: BranchId, rd: Reading, args: seq<Value>)
    requires Hoists(up, 2 * n + 1) && |args| == 2 * n + 1 && Choice(up, n).Ok()
    requires Choice(up, n).Effect().inputs == |args|
    ensures ReadTerm(Choice(up, n), rd, args) == BoxAnswer(Kind.Select(n, branch), rd, args)
  {
    hide Tree.Ok; hide Tree.Effect; hide ReadTerm;
    ChoiceShape(up, n);
    IdShape(n);
    var (yes, no) := Arms(n);
    var left, right := args[1..1 + n], args[1 + n..];
    assert args[1..] + [args[0]] == (left + right) + [args[0]];
    ReadsBeside(Tree.Id(n), Tree.Drop(n), rd, left, right);
    ReadsBeside(Tree.Drop(n), Tree.Id(n), rd, left, right);
    IdReads(n, rd, left);
    IdReads(n, rd, right);
    assert left + [] == left && [] + right == right;
    BranchReads(yes, no, rd, left + right, args[0]);
    ComposeReads(up, Tree.Branch(yes, no), rd, args);
  }

  lemma ComposeReads(a: Tree, b: Tree, rd: Reading, s: seq<Value>)
    requires Tree.Compose(a, b).Ok() && |s| == Tree.Compose(a, b).Effect().inputs
    ensures a.Ok() && b.Ok() && |s| == a.Effect().inputs && a.Effect().outputs == b.Effect().inputs
    ensures ReadTerm(Tree.Compose(a, b), rd, s) == ReadTerm(b, rd, ReadTerm(a, rd, s))
  {
  }

  lemma BranchReads(a: Tree, b: Tree, rd: Reading, s: seq<Value>, cond: Value)
    requires Tree.Branch(a, b).Ok() && |s| == a.Effect().inputs
    ensures ReadTerm(Tree.Branch(a, b), rd, s + [cond]) == if cond.Truthy()
      then ReadTerm(a, rd, s) else ReadTerm(b, rd, s)
  {
    assert (s + [cond])[..|s|] == s;
  }

  lemma LeafStands(kind: Kind)
    requires EndOf(kind).None?
    ensures StandsFor(LeafTree(kind), kind)
  {
  }

  function LeafTree(kind: Kind): Tree
    requires EndOf(kind).None?
  {
    match kind
    case Id(n) => Tree.Id(n)
    case Copy(n) => Tree.Copy(n)
    case Drop(n) => Tree.Drop(n)
    case Op(prim) => Tree.Op(prim)
    case Call(target, arity) => Tree.Call(target, arity)
  }

  function LeafTerm(kind: Kind): Term
    requires EndOf(kind).None?
  {
    match kind
    case Id(n) => Term.Id(n)
    case Copy(n) => Term.Copy(n)
    case Drop(n) => Term.Drop(n)
    case Op(prim) => Term.Op(prim)
    case Call(target, arity) => Term.Call(target, arity)
  }

  /** A term that answers what the box answers. Forks discard their condition; selects become branches. */
  method BoxTerm(terms: Context, kind: Kind) returns (i: TermIndex)
    requires terms.Valid()
    modifies terms
    ensures terms.Grew() && terms.Has(i) && StandsFor(terms.At(i), kind)
  {
    hide TreeAt; hide Ordered; hide StandsFor; hide Hoists;
    match kind {
      case Fork(n, branch) =>
        var gone := terms.Push(Term.Drop(1));
        var both := terms.Push(Term.Copy(n));
        i := terms.Push(Term.Par(gone, both));
        ForkStands(n, branch);
      case Select(n, branch) =>
        i := SelectTerm(terms, n, branch);
      case _ =>
        i := terms.Push(LeafTerm(kind));
        LeafStands(kind);
    }
  }

  method SelectTerm(terms: Context, n: nat, ghost branch: BranchId) returns (i: TermIndex)
    requires terms.Valid()
    modifies terms
    ensures terms.Grew() && terms.Has(i) && StandsFor(terms.At(i), Kind.Select(n, branch))
  {
    hide TreeAt; hide Ordered; hide StandsFor; hide Tree.Ok; hide Tree.Effect; hide ReadTerm;
    var up := Hoist(terms, 2 * n + 1);
    ghost var lift := terms.At(up);
    ChoiceShape(lift, n);
    var choose := Choose(terms, n);
    var made := terms.Compose(up, choose);
    i := made.value;
    ChoiceStands(lift, n, branch);
  }

  /** Keep one block, let the other go. */
  method Choose(terms: Context, n: nat) returns (i: TermIndex)
    requires terms.Valid()
    modifies terms
    ensures terms.Grew() && terms.Has(i) && terms.At(i) == Tree.Branch(Arms(n).0, Arms(n).1)
  {
    hide TreeAt; hide Ordered; hide Tree.Ok; hide Tree.Effect;
    IdShape(n);
    ParShape(Tree.Id(n), Tree.Drop(n));
    ParShape(Tree.Drop(n), Tree.Id(n));
    var keep := terms.Push(Term.Id(n));
    var lose := terms.Push(Term.Drop(n));
    var yes := terms.Push(Term.Par(keep, lose));
    var no := KeepTop(terms, n);
    var choose := terms.Branch(yes, no);
    i := choose.value;
  }

  method KeepTop(terms: Context, n: nat) returns (i: TermIndex)
    requires terms.Valid()
    modifies terms
    ensures terms.Grew() && terms.Has(i) && terms.At(i) == Arms(n).1
  {
    hide TreeAt; hide Ordered;
    var lose := terms.Push(Term.Drop(n));
    var keep := terms.Push(Term.Id(n));
    i := terms.Push(Term.Par(lose, keep));
  }

  // ---- the stack between one box and the next ----

  /** The sources read by some box from `order[k]` on, or by an output. */
  function Wanted(w: Wiring, order: seq<NodeId>, k: nat): set<Source>
    requires k <= |order| && forall j | 0 <= j < |order| :: w.Live(order[j])
    decreases |order| - k
  {
    if k == |order| then (set x | x in w.outputs) else Wanted(w, order, k + 1) + (set x | x in w.At(order[k]).inputs)
  }

  function Kept(stack: seq<Source>, wanted: set<Source>): (r: seq<Source>)
    ensures forall x :: x in r <==> x in stack && x in wanted
  {
    if stack == [] then []
    else Kept(stack[..|stack| - 1], wanted) + if stack[|stack| - 1] in wanted then [stack[|stack| - 1]] else []
  }

  lemma {:induction false} KeptDifferent(stack: seq<Source>, wanted: set<Source>)
    requires AllDifferent(stack)
    ensures AllDifferent(Kept(stack, wanted)) && |Kept(stack, wanted)| <= |stack|
  {
    if stack != [] {
      var last := |stack| - 1;
      KeptDifferent(stack[..last], wanted);
      assert stack == stack[..last] + [stack[last]];
      assert stack[last] !in stack[..last];
    }
  }

  lemma {:induction false} KeptJoins(a: seq<Source>, b: seq<Source>, wanted: set<Source>)
    ensures Kept(a + b, wanted) == Kept(a, wanted) + Kept(b, wanted)
    decreases |b|
  {
    if b == [] {
      assert a + b == a;
    } else {
      var last := |b| - 1;
      assert (a + b)[..|a + b| - 1] == a + b[..last];
      KeptJoins(a, b[..last], wanted);
    }
  }

  /** The lowest place on the stack holding an operand, or the height of the stack if none does. */
  method Anchor(stack: seq<Source>, sources: seq<Source>) returns (anchor: nat)
    ensures anchor <= |stack|
    ensures anchor < |stack| ==> stack[anchor] in sources
    ensures forall i | 0 <= i < anchor :: stack[i] !in sources
  {
    anchor := 0;
    while anchor < |stack| && stack[anchor] !in sources
      invariant anchor <= |stack| && forall i | 0 <= i < anchor :: stack[i] !in sources
    {
      anchor := anchor + 1;
    }
  }

  /** The values so far: the rows take the inputs to what the stack holds, whatever solves the graph. */
  ghost predicate Standing(w: Wiring, rows: seq<Tree>, stack: seq<Source>) {
    AllDifferent(stack) && Yields(w, rows, stack)
  }

  ghost predicate Yields(w: Wiring, rows: seq<Tree>, stack: seq<Source>) {
    && Chain(rows, w.inputs) && Width(rows, w.inputs) == |stack|
    && forall rd: Reading, env: seq<Value>, v: Valuation | Solves(w, rd, env, v) && |env| == w.inputs ::
      ReadParts(rows, rd, env) == ValuesOf(v, stack)
  }

  /** A source whose producer has run, or that is the graph's own. */
  predicate There(src: Source, ran: seq<NodeId>) {
    src.Port? ==> src.node in ran
  }

  /** The stack holds what is wanted and there, and nothing that has not been made. */
  ghost predicate Holding(w: Wiring, stack: seq<Source>, ran: seq<NodeId>, wanted: set<Source>) {
    && (forall src | src in wanted && There(src, ran) :: src in stack)
    && (forall src | src in stack :: There(src, ran))
  }

  lemma StandingRouted(w: Wiring, rows: seq<Tree>, more: seq<Tree>, stack: seq<Source>, want: seq<Source>)
    requires Standing(w, rows, stack) && Routes(more, stack, want)
    ensures Yields(w, rows + more, want)
  {
    ChainsJoin(rows, more, w.inputs);
    forall rd: Reading, env: seq<Value>, v: Valuation | Solves(w, rd, env, v) && |env| == w.inputs
      ensures ReadParts(rows + more, rd, env) == ValuesOf(v, want)
    {
      ReadsJoin(rows, more, rd, env);
    }
  }

  /** A box in the middle of the stack, the survivors passing either side of it. */
  function BoxRow(t: Tree, below: nat, above: nat): Tree {
    if above > 0 then Tree.Par(Widened(t, below), Tree.Id(above)) else Widened(t, below)
  }

  lemma BoxRowReads(t: Tree, rd: Reading, low: seq<Value>, args: seq<Value>, high: seq<Value>)
    requires t.Ok() && |args| == t.Effect().inputs
    ensures BoxRow(t, |low|, |high|).Ok()
    ensures BoxRow(t, |low|, |high|).Effect() == Arity(|low| + |args| + |high|, |low| + t.Effect().outputs + |high|)
    ensures ReadTerm(BoxRow(t, |low|, |high|), rd, low + args + high) == low + ReadTerm(t, rd, args) + high
  {
    hide ReadTerm; hide Tree.Ok; hide Tree.Effect; hide Widened;
    var x, y := low + args, low + ReadTerm(t, rd, args);
    UnderReads(t, rd, low, args);
    if |high| > 0 {
      BesideId(Widened(t, |low|), rd, x, y, high);
    } else {
      assert x + high == x && y + high == y;
    }
  }

  lemma BesideId(t: Tree, rd: Reading, x: seq<Value>, y: seq<Value>, high: seq<Value>)
    requires t.Ok() && t.Effect() == Arity(|x|, |y|) && ReadTerm(t, rd, x) == y
    ensures var row := Tree.Par(t, Tree.Id(|high|));
      row.Ok() && row.Effect() == Arity(|x| + |high|, |y| + |high|) && ReadTerm(row, rd, x + high) == y + high
  {
    IdShape(|high|);
    ParShape(t, Tree.Id(|high|));
    ReadsBeside(t, Tree.Id(|high|), rd, x, high);
    IdReads(|high|, rd, high);
  }

  lemma UnderReads(t: Tree, rd: Reading, low: seq<Value>, args: seq<Value>)
    requires t.Ok() && |args| == t.Effect().inputs
    ensures var under := Widened(t, |low|);
      && under.Ok() && under.Effect() == Arity(|low| + t.Effect().inputs, |low| + t.Effect().outputs)
      && ReadTerm(under, rd, low + args) == low + ReadTerm(t, rd, args)
  {
    if low == [] {
      assert low + args == args && low + ReadTerm(t, rd, args) == ReadTerm(t, rd, args);
    } else {
      ReadsBeside(Tree.Id(|low|), t, rd, low, args);
    }
  }

  lemma StandingBoxed(
    w: Wiring, rows: seq<Tree>, t: Tree, id: NodeId, low: seq<Source>, high: seq<Source>)
    requires w.Whole() && w.Live(id) && StandsFor(t, w.At(id).kind)
    requires Yields(w, rows, low + w.At(id).inputs + high)
    requires AllDifferent(low + Ports(id, w.At(id).kind.Effect().outputs) + high)
    ensures Standing(w, rows + [BoxRow(t, |low|, |high|)], low + Ports(id, w.At(id).kind.Effect().outputs) + high)
  {
    hide ReadTerm; hide Tree.Ok; hide Tree.Effect; hide BoxAnswer; hide Wiring.Acyclic; hide BoxRow;
    var kind, row := w.At(id).kind, BoxRow(t, |low|, |high|);
    BoxRowReads(t, Reading(imap[], imap[]), Units(|low|), Units(kind.Effect().inputs), Units(|high|));
    ReadsOne(row, Reading(imap[], imap[]), Units(row.Effect().inputs));
    ChainsJoin(rows, [row], w.inputs);
    var out := low + Ports(id, kind.Effect().outputs) + high;
    forall rd: Reading, env: seq<Value>, v: Valuation | Solves(w, rd, env, v) && |env| == w.inputs
      ensures ReadParts(rows + [row], rd, env) == ValuesOf(v, out)
    {
      ReadsJoin(rows, [row], rd, env);
      BoxedValue(w, rd, env, v, t, id, low, high);
      ReadsOne(row, rd, ValuesOf(v, low + w.At(id).inputs + high));
    }
  }

  lemma BoxedValue(
    w: Wiring, rd: Reading, env: seq<Value>, v: Valuation, t: Tree, id: NodeId, low: seq<Source>, high: seq<Source>)
    requires w.Whole() && w.Live(id) && StandsFor(t, w.At(id).kind) && Solves(w, rd, env, v)
    ensures var row := BoxRow(t, |low|, |high|);
      && row.Ok() && row.Effect().inputs == |low + w.At(id).inputs + high|
      && ReadTerm(row, rd, ValuesOf(v, low + w.At(id).inputs + high))
        == ValuesOf(v, low + Ports(id, w.At(id).kind.Effect().outputs) + high)
  {
    hide ReadTerm; hide Tree.Ok; hide Tree.Effect; hide BoxAnswer; hide Wiring.Acyclic; hide BoxRow;
    var box := w.At(id);
    assert BoxSolved(box, id, rd, v);
    ValuesBeside(v, low, box.inputs);
    ValuesBeside(v, low + box.inputs, high);
    var ports := Ports(id, box.kind.Effect().outputs);
    ValuesBeside(v, low, ports);
    ValuesBeside(v, low + ports, high);
    BoxRowReads(t, rd, ValuesOf(v, low), ValuesOf(v, box.inputs), ValuesOf(v, high));
  }

  // ---- the whole graph ----

  lemma {:induction false} WantedHeld(w: Wiring, order: seq<NodeId>, k: nat, src: Source)
    requires w.Sound() && k <= |order| && (forall j | 0 <= j < |order| :: w.Live(order[j]))
    requires src in Wanted(w, order, k)
    ensures w.Has(src)
    decreases |order| - k
  {
    if k == |order| {
      var j :| 0 <= j < |w.outputs| && w.outputs[j] == src;
      assert w.Reads(Output(j)) == Some(src);
    } else if src in Wanted(w, order, k + 1) {
      WantedHeld(w, order, k + 1, src);
    } else {
      var j :| 0 <= j < |w.At(order[k]).inputs| && w.At(order[k]).inputs[j] == src;
      assert w.Reads(Slot(order[k], j)) == Some(src);
    }
  }

  /** A step of the schedule: the stack between its first `k` boxes and the rest. */
  ghost predicate Between(w: Wiring, order: seq<NodeId>, k: nat, stack: seq<Source>) {
    && w.Whole() && Scheduling.Schedules(w, order) && k <= |order| && (forall j | 0 <= j < |order| :: w.Live(order[j]))
    && AllDifferent(stack) && Holding(w, stack, order[..k], Wanted(w, order, k))
  }

  /** What the next box reads is on the stack. */
  lemma SourcesHeld(w: Wiring, order: seq<NodeId>, k: nat, stack: seq<Source>, src: Source)
    requires Between(w, order, k, stack) && k < |order| && src in w.At(order[k]).inputs
    ensures src in stack
  {
    hide Scheduling.Schedules; hide Wiring.Whole;
    assert src in Wanted(w, order, k);
    SourceRan(w, order, k, src);
  }

  lemma SourceRan(w: Wiring, order: seq<NodeId>, k: nat, src: Source)
    requires Scheduling.Schedules(w, order) && k < |order| && w.Live(order[k]) && src in w.At(order[k]).inputs
    ensures There(src, order[..k])
  {
    assert Scheduling.ReadyAfter(w, order[..k], order[k]);
  }

  /** The stack after a box: the survivors, either side of what it leaves. */
  lemma NextHolds(w: Wiring, order: seq<NodeId>, k: nat, stack: seq<Source>, low: seq<Source>, high: seq<Source>)
    requires Between(w, order, k, stack) && k < |order|
    requires low + high == Kept(stack, Wanted(w, order, k + 1))
    ensures Between(w, order, k + 1, low + Ports(order[k], w.At(order[k]).kind.Effect().outputs) + high)
  {
    hide Wiring.Acyclic;
    var id := order[k];
    var ports, keep := Ports(id, w.At(id).kind.Effect().outputs), low + high;
    var next := low + ports + high;
    assert order[..k + 1] == order[..k] + [id];
    NotYetRan(w, order, k);
    KeptDifferent(stack, Wanted(w, order, k + 1));
    forall x ensures x in next <==> x in keep || x in ports {
    }
    forall x | x in ports ensures x !in keep && x.Port? && x.node == id {
    }
    DifferentBeside(low, ports, high);
    forall src | src in Wanted(w, order, k + 1) && There(src, order[..k + 1]) ensures src in next {
      WantedHeld(w, order, k + 1, src);
      if src.Port? && src.node == id {
        assert src == ports[src.port];
      } else {
        assert There(src, order[..k]) && src in Wanted(w, order, k);
      }
    }
  }

  lemma NotYetRan(w: Wiring, order: seq<NodeId>, k: nat)
    requires Scheduling.Schedules(w, order) && k < |order|
    ensures order[k] !in order[..k]
  {
  }

  lemma DifferentBeside(low: seq<Source>, mid: seq<Source>, high: seq<Source>)
    requires AllDifferent(low + high) && AllDifferent(mid) && forall x | x in mid :: x !in low + high
    ensures AllDifferent(low + mid + high)
  {
    var all := low + mid + high;
    forall i, j | 0 <= i < j < |all| ensures all[i] != all[j] {
      if |low| <= i < |low| + |mid| {
        assert all[i] in mid;
      }
      if |low| <= j < |low| + |mid| {
        assert all[j] in mid;
      }
      if i < |low| {
        assert all[i] == (low + high)[i];
      }
      if j < |low| {
        assert all[j] == (low + high)[j];
      }
      if i >= |low| + |mid| {
        assert all[i] == (low + high)[i - |mid|];
      }
      if j >= |low| + |mid| {
        assert all[j] == (low + high)[j - |mid|];
      }
    }
  }

  /** One box: routed to, placed where its operands lie, and the stack it leaves. */
  method Step(graph: Graph, terms: Context, order: seq<NodeId>, k: nat, stack: seq<Source>, wanted: set<Source>,
    steps0: seq<TermIndex>, ghost rows0: seq<Tree>)
    returns (steps: seq<TermIndex>, ghost rows: seq<Tree>, next: seq<Source>)
    requires terms.Valid() && k < |order| && Between(graph.W(), order, k, stack)
    requires wanted == Wanted(graph.W(), order, k + 1)
    requires Rows(terms, steps0, rows0) && Standing(graph.W(), rows0, stack)
    modifies terms
    ensures terms.Grew() && Rows(terms, steps, rows) && Standing(graph.W(), rows, next)
    ensures Between(graph.W(), order, k + 1, next)
  {
    hide Routes; hide Standing; hide TreeAt; hide Ordered; hide StandsFor; hide Scheduling.Schedules; hide Wiring.Whole;
    hide Tree.Ok; hide Tree.Effect; hide Holding;
    ghost var w := graph.W();
    var id := order[k];
    var node := graph.nodes[id].value;
    assert w.At(id) == Box(node.kind, node.inputs);
    var keep := Kept(stack, wanted);
    var anchor := Anchor(stack, node.inputs);
    assert stack == stack[..anchor] + stack[anchor..];
    KeptJoins(stack[..anchor], stack[anchor..], wanted);
    var below := |Kept(stack[..anchor], wanted)|;
    var low, high := keep[..below], keep[below..];
    assert keep == low + high;
    var want := low + node.inputs + high;
    forall x | x in want ensures x in stack {
      if x in node.inputs {
        SourcesHeld(w, order, k, stack, x);
      }
    }
    var routed;
    ghost var routing;
    routed, routing := RouteTo(w, terms, stack, want, steps0, rows0);
    next := low + Ports(id, node.kind.Effect().outputs) + high;
    NextHolds(w, order, k, stack, low, high);
    steps, rows := PlaceOn(w, terms, node.kind, id, low, high, routed, routing);
  }

  /** The steps so far, and those that take the stack to what is wanted of it. */
  method RouteTo(ghost w: Wiring, terms: Context, stack: seq<Source>, want: seq<Source>,
    steps0: seq<TermIndex>, ghost rows0: seq<Tree>)
    returns (steps: seq<TermIndex>, ghost rows: seq<Tree>)
    requires terms.Valid() && AllDifferent(stack) && forall x | x in want :: x in stack
    requires w.Whole() && Rows(terms, steps0, rows0) && Standing(w, rows0, stack)
    modifies terms
    ensures terms.Grew() && Rows(terms, steps, rows) && Yields(w, rows, want)
  {
    hide Routes; hide Standing; hide Yields; hide TreeAt; hide Ordered; hide Wiring.Whole;
    ghost var was := terms.terms;
    var routed;
    ghost var routing;
    routed, routing := Route(terms, stack, want);
    NamesStay(was, terms.terms, steps0, rows0);
    NamesJoin(terms.terms, steps0, routed, rows0, routing);
    StandingRouted(w, rows0, routing, stack, want);
    steps, rows := steps0 + routed, rows0 + routing;
  }

  /** The steps so far, and the box run between what stays below its operands and what stays above. */
  method PlaceOn(ghost w: Wiring, terms: Context, kind: Kind, id: NodeId, low: seq<Source>, high: seq<Source>,
    steps0: seq<TermIndex>, ghost rows0: seq<Tree>)
    returns (steps: seq<TermIndex>, ghost rows: seq<Tree>)
    requires terms.Valid() && w.Whole() && w.Live(id) && w.At(id).kind == kind
    requires Rows(terms, steps0, rows0) && Yields(w, rows0, low + w.At(id).inputs + high)
    requires AllDifferent(low + Ports(id, kind.Effect().outputs) + high)
    modifies terms
    ensures terms.Grew() && Rows(terms, steps, rows)
    ensures Standing(w, rows, low + Ports(id, kind.Effect().outputs) + high)
  {
    hide Standing; hide Yields; hide TreeAt; hide Ordered; hide StandsFor; hide Wiring.Whole;
    ghost var was := terms.terms;
    var step;
    ghost var t;
    step, t := PlaceBox(terms, kind, |low|, |high|);
    NamesStay(was, terms.terms, steps0, rows0);
    NamesJoin(terms.terms, steps0, [step], rows0, [BoxRow(t, |low|, |high|)]);
    steps, rows := steps0 + [step], rows0 + [BoxRow(t, |low|, |high|)];
    StandingBoxed(w, rows0, t, id, low, high);
  }

  /** A box's term with the survivors either side of it. */
  method PlaceBox(terms: Context, kind: Kind, below: nat, above: nat) returns (i: TermIndex, ghost t: Tree)
    requires terms.Valid()
    modifies terms
    ensures terms.Grew() && terms.Has(i) && StandsFor(t, kind) && terms.At(i) == BoxRow(t, below, above)
  {
    hide TreeAt; hide Ordered; hide StandsFor;
    i := BoxTerm(terms, kind);
    t := terms.At(i);
    i := terms.Under(i, below);
    if above > 0 {
      var untouched := terms.Push(Term.Id(above));
      i := terms.Push(Term.Par(i, untouched));
    }
  }

  /** `Wanted` for every number of steps done, computed from the last backwards. */
  method WantedSets(graph: Graph, order: seq<NodeId>) returns (wanted: seq<set<Source>>)
    requires forall j | 0 <= j < |order| :: graph.W().Live(order[j])
    ensures |wanted| == |order| + 1 && forall k: nat | k <= |order| :: wanted[k] == Wanted(graph.W(), order, k)
  {
    var last := set x | x in graph.outputs;
    wanted := [last];
    for k: nat := |order| downto 0
      invariant |wanted| == |order| + 1 - k && forall j: nat | k <= j <= |order| ::
        wanted[j - k] == Wanted(graph.W(), order, j)
    {
      var more := wanted[0] + set x | x in graph.nodes[order[k]].value.inputs;
      assert more == Wanted(graph.W(), order, k);
      wanted := [more] + wanted;
    }
  }

  lemma OrderLive(w: Wiring, order: seq<NodeId>)
    requires Scheduling.Schedules(w, order)
    ensures forall j | 0 <= j < |order| :: w.Live(order[j])
  {
  }

  /** At the start the stack is the graph's inputs. */
  lemma AtFirst(w: Wiring, order: seq<NodeId>)
    requires w.Whole() && Scheduling.Schedules(w, order) && forall j | 0 <= j < |order| :: w.Live(order[j])
    ensures Standing(w, [], Inputs(w.inputs)) && Between(w, order, 0, Inputs(w.inputs))
  {
    hide Scheduling.Schedules; hide Wiring.Acyclic;
    forall src | src in Wanted(w, order, 0) && There(src, order[..0]) ensures src in Inputs(w.inputs) {
      WantedHeld(w, order, 0, src);
      assert src == Inputs(w.inputs)[src.i];
    }
    forall src | src in Inputs(w.inputs) ensures There(src, order[..0]) {
    }
  }

  /** At the end what the boundary leaves is on the stack. */
  lemma OutputsOnStack(w: Wiring, order: seq<NodeId>, stack: seq<Source>)
    requires Between(w, order, |order|, stack)
    ensures AllDifferent(stack) && forall x | x in w.outputs :: x in stack
  {
    assert order[..|order|] == order;
    forall x | x in w.outputs ensures x in stack {
      assert x in Wanted(w, order, |order|);
      WantedHeld(w, order, |order|, x);
    }
  }

  lemma {:induction false} FoldedReads(acc: Tree, parts: seq<Tree>, rd: Reading, s: seq<Value>)
    requires acc.Ok() && Chain(parts, acc.Effect().outputs) && |s| == acc.Effect().inputs
    ensures Folded(acc, parts).Ok()
    ensures Folded(acc, parts).Effect() == Arity(acc.Effect().inputs, Width(parts, acc.Effect().outputs))
    ensures ReadTerm(Folded(acc, parts), rd, s) == ReadParts(parts, rd, ReadTerm(acc, rd, s))
    decreases |parts|
  {
    if parts != [] {
      FoldedReads(Tree.Compose(acc, parts[0]), parts[1..], rd, s);
    }
  }

  lemma RebuiltReads(parts: seq<Tree>, rd: Reading, s: seq<Value>)
    requires Chain(parts, |s|)
    ensures Rebuilt(parts, |s|).Ok()
    ensures Rebuilt(parts, |s|).Effect() == Arity(|s|, Width(parts, |s|))
    ensures ReadTerm(Rebuilt(parts, |s|), rd, s) == ReadParts(parts, rd, s)
  {
    if parts != [] {
      FoldedReads(parts[0], parts[1..], rd, s);
    }
  }

  /** All steps composed in order; with none, `id` of the graph's inputs. */
  method FoldSteps(terms: Context, steps: seq<TermIndex>, width: nat, ghost rows: seq<Tree>) returns (i: TermIndex)
    requires terms.Valid() && Rows(terms, steps, rows) && Chain(rows, width)
    modifies terms
    ensures terms.Grew() && terms.Has(i) && terms.At(i) == Rebuilt(rows, width)
  {
    hide TreeAt; hide Ordered; hide Tree.Ok; hide Tree.Effect;
    if steps == [] {
      i := terms.Push(Term.Id(width));
      return;
    }
    i := steps[0];
    for k := 1 to |steps|
      invariant terms.Grew() && terms.Has(i) && terms.At(i).Ok() && Chain(rows[k..], terms.At(i).Effect().outputs)
      invariant Folded(terms.At(i), rows[k..]) == Rebuilt(rows, width)
    {
      assert terms.Has(steps[k]) && terms.At(steps[k]) == rows[k];
      assert rows[k..][0] == rows[k] && rows[k..][1..] == rows[k + 1..];
      ComposeShape(terms.At(i), rows[k]);
      var made := terms.Compose(i, steps[k]);
      i := made.value;
    }
  }

  /** A term that says what a graph means, however operations and calls are read. */
  ghost predicate Says(t: Tree, w: Wiring) {
    && t.Ok() && w.Whole() && t.Effect() == w.Effect()
    && forall rd: Reading, env: seq<Value> | |env| == w.inputs :: ReadTerm(t, rd, env) == Meaning(w, rd, env)
  }

  /** The graph as a term: of its arity, and meaning what it means. */
  method ReadTermBack(graph: Graph, terms: Context) returns (i: TermIndex)
    requires graph.S().Linked() && graph.W().Whole() && terms.Valid()
    modifies terms
    ensures terms.Grew() && terms.Has(i) && Says(terms.At(i), graph.W())
  {
    hide Routes; hide Standing; hide TreeAt; hide Ordered; hide Wiring.Whole; hide Says; hide Scheduling.Schedules;
    hide Between;
    ghost var w := graph.W();
    var order := Scheduling.Schedule(graph);
    OrderLive(w, order);
    var wanted := WantedSets(graph, order);
    var stack := Inputs(|graph.inputs|);
    var steps: seq<TermIndex> := [];
    ghost var rows: seq<Tree> := [];
    AtFirst(w, order);
    for k: nat := 0 to |order|
      invariant terms.Grew() && Rows(terms, steps, rows) && Standing(w, rows, stack)
      invariant Between(w, order, k, stack)
    {
      steps, rows, stack := Step(graph, terms, order, k, stack, wanted[k + 1], steps, rows);
    }
    OutputsOnStack(w, order, stack);
    ghost var was := terms.terms;
    var routed;
    ghost var routing;
    routed, routing := Route(terms, stack, graph.outputs);
    NamesStay(was, terms.terms, steps, rows);
    NamesJoin(terms.terms, steps, routed, rows, routing);
    StandingRouted(w, rows, routing, stack, w.outputs);
    i := FoldSteps(terms, steps + routed, |graph.inputs|, rows + routing);
    RowsSay(w, rows + routing);
  }

  /** Rows that take the inputs to the outputs, whatever solves the graph, say what the graph means. */
  lemma RowsSay(w: Wiring, rows: seq<Tree>)
    requires w.Whole() && Chain(rows, w.inputs) && Width(rows, w.inputs) == |w.outputs|
    requires forall rd: Reading, env: seq<Value>, v: Valuation | Solves(w, rd, env, v) && |env| == w.inputs ::
      ReadParts(rows, rd, env) == ValuesOf(v, w.outputs)
    ensures Says(Rebuilt(rows, w.inputs), w)
  {
    hide ReadTerm; hide Tree.Ok; hide Tree.Effect; hide Wiring.Acyclic; hide Wiring.Sound; hide Rebuilt;
    hide Meaning; hide Solves;
    var t := Rebuilt(rows, w.inputs);
    RebuiltReads(rows, Reading(imap[], imap[]), Units(w.inputs));
    forall rd: Reading, env: seq<Value> | |env| == w.inputs ensures ReadTerm(t, rd, env) == Meaning(w, rd, env) {
      var v := HasSolution(w, rd, env);
      MeaningIs(w, rd, env, v);
      RebuiltReads(rows, rd, env);
    }
  }
}
