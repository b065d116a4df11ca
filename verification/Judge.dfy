/** The question the prover asks of the engine: are these two terms one diagram? */
module Judge {
  import opened Wrappers
  import opened Values
  import opened Prims
  import opened Terms
  import opened Wires
  import opened Order
  import opened Supports
  import opened Folds
  import opened Diagrams
  import opened Engine
  import opened Readings
  import opened Landings
  import opened Walking
  import opened Freedom
  import opened Normalize

  // ---- one diagram, one program ----

  lemma NormalStays(a: Arena, b: Arena, t: Tree, out: DiagId)
    requires a.Ok() && b.Ok() && Extends(a, b) && NormalRight(a, t, out)
    ensures NormalRight(b, t, out)
  {
    ExtendsAgrees(a, b);
  }

  lemma FormedStays(a: Arena, b: Arena, t: Tree, out: DiagId)
    requires a.Ok() && b.Ok() && Extends(a, b) && Distinct(b.vals)
    requires Formed(a, t, out) && HasInputs(a.vals, t.Effect().inputs)
    ensures Formed(b, t, out)
  {
    hide Walked;
    var stack: seq<ValId> :| |stack| == t.Effect().inputs && InputWires(a.vals, stack);
    WalkedStays(a, b, t, stack, [], out);
    assert InputWires(b.vals, stack);
    forall other: seq<ValId> | |other| == t.Effect().inputs && InputWires(b.vals, other)
      ensures Walked(b, t, other, [], out)
    {
      InputsAreOnce(b.vals, stack, other);
    }
  }

  /** Sound for every pair of terms. */
  lemma OneDiagramIsSame(a: Arena, l: Tree, r: Tree, d: DiagId)
    requires a.Ok() && l.Effect() == r.Effect() && NormalRight(a, l, d) && NormalRight(a, r, d)
    ensures Same(l, r)
  {
    forall calls: Interp, s: seq<Value> | |s| == l.Effect().inputs ensures Run(l, calls, s) == Run(r, calls, s) {
      var w := World(calls, s);
      assert w.env[..|s|] == s;
      assert Diag(a, d, w) == Run(l, calls, s);
    }
  }

  // ---- programs that are one diagram ----

  /** More inputs than any wire reads. */
  function InputsRead(vals: seq<ValNode>): (n: nat)
    ensures forall v | 0 <= v < |vals| && vals[v].Var? :: vals[v].i < n
  {
    if vals == [] then 0
    else
      var rest := InputsRead(vals[..|vals| - 1]);
      var last := vals[|vals| - 1];
      if last.Var? && last.i >= rest then last.i + 1 else rest
  }

  /** Whatever holds, the two choose leaves of the same wires. */
  ghost predicate ChooseAlike(a: Arena, d: DiagId, e: DiagId)
    requires a.Ok() && d < |a.diags| && e < |a.diags|
  {
    forall truth: iset<ValId> {:trigger Chosen(a, d, truth)} :: Chosen(a, d, truth) == Chosen(a, e, truth)
  }

  /** Two diagrams of plain conditions whose leaves have the same wires whatever holds are one index. */
  lemma ChooseAlikeIsOne(a: Arena, d: DiagId, e: DiagId)
    requires a.Ok() && Distinct(a.vals) && DistinctDiags(a.diags) && NodesSorted(a)
    requires d < |a.diags| && e < |a.diags| && PlainDiag(a, d) && PlainDiag(a, e) && ChooseAlike(a, d, e)
    ensures d == e
  {
    hide NodesSorted; hide Distinct; hide PlainDiag;
    forall truth: iset<ValId> ensures Choose(a.diags, d, truth) == Choose(a.diags, e, truth) {
      var (x, y) := (Choose(a.diags, d, truth), Choose(a.diags, e, truth));
      assert Chosen(a, d, truth) == Chosen(a, e, truth);
      assert a.diags[x] == a.diags[y];
    }
    PlainCanonical(a, d, e);
  }

  lemma PlainCanonical(a: Arena, d: DiagId, e: DiagId)
    requires a.Ok() && Distinct(a.vals) && DistinctDiags(a.diags) && NodesSorted(a)
    requires d < |a.diags| && e < |a.diags| && PlainDiag(a, d) && PlainDiag(a, e)
    requires forall truth: iset<ValId> :: Choose(a.diags, d, truth) == Choose(a.diags, e, truth)
    ensures d == e
  {
    Canonical(a, d, e);
  }

  // ---- terms that wire, push, call and branch ----

  /** What carries a true value, of the values the wires carry and of the literals. */
  ghost function TrueValues(vals: seq<ValNode>, truth: iset<ValId>, w: World, pushed: set<Value>): iset<Value>
    requires WiresOk(vals)
  {
    iset x: Value | (x in pushed && x.Truthy()) || CarriedTruly(vals, truth, w, pushed, x)
  }

  ghost predicate CarriedTruly(vals: seq<ValNode>, truth: iset<ValId>, w: World, pushed: set<Value>, x: Value)
    requires WiresOk(vals)
  {
    exists v: ValId :: v < |vals| && v in truth && Spoken(vals, v, pushed) && !vals[v].Lit? && Val(vals, v, w) == x
  }

  const NONE := Verdicts({}, iset{})

  /** In the free world every wire carries what it is meant to, and no two the same. */
  lemma FreeMeans(vals: seq<ValNode>, id: nat, pushed: set<Value>, n: nat, v: ValId)
    requires WiresOk(vals) && Distinct(vals) && v < |vals| && Spoken(vals, v, pushed) && Fresh(id, pushed)
    requires forall x | 0 <= x < |vals| && vals[x].Var? :: vals[x].i < n
    ensures Val(vals, v, FreeWorld(vals, id, NONE, n)) == Meant(vals, id, NONE, v)
    ensures Mentions(Meant(vals, id, NONE, v), id) == !vals[v].Lit?
  {
    hide FreeWorld; hide Meant; hide Val;
    FreeCarries(vals, id, NONE, pushed, n, v);
    Shape(vals, id, NONE, pushed, v);
  }

  lemma FreeTells(vals: seq<ValNode>, id: nat, pushed: set<Value>, n: nat, truth: iset<ValId>)
    requires WiresOk(vals) && Distinct(vals) && Fresh(id, pushed)
    requires forall x | 0 <= x < |vals| && vals[x].Var? :: vals[x].i < n
    ensures var w := FreeWorld(vals, id, NONE, n); Tells(vals, truth, w, TrueValues(vals, truth, w, pushed), pushed)
  {
    hide FreeWorld; hide Meant; hide Val; hide Spoken; hide Distinct; hide Mentions;
    var w := FreeWorld(vals, id, NONE, n);
    var values := TrueValues(vals, truth, w, pushed);
    forall v: ValId | v < |vals| && Spoken(vals, v, pushed)
      ensures Mentions(Val(vals, v, w), id) == !vals[v].Lit?
    {
      FreeMeans(vals, id, pushed, n, v);
    }
    forall u: ValId, v: ValId |
      && u < |vals| && v < |vals| && Spoken(vals, u, pushed) && Spoken(vals, v, pushed)
      && Val(vals, u, w) == Val(vals, v, w)
      ensures u == v
    {
      FreeMeans(vals, id, pushed, n, u);
      FreeMeans(vals, id, pushed, n, v);
      MeantInjective(vals, id, NONE, pushed, u, v);
    }
  }

  /** Wires no instruction computes that carry the same in the free world are the same. */
  lemma FreeApart(vals: seq<ValNode>, id: nat, pushed: set<Value>, n: nat, x: seq<ValId>, y: seq<ValId>)
    requires WiresOk(vals) && Distinct(vals) && Fresh(id, pushed) && All(x, |vals|) && All(y, |vals|)
    requires forall x | 0 <= x < |vals| && vals[x].Var? :: vals[x].i < n
    requires AllSpoken(vals, x, pushed) && AllSpoken(vals, y, pushed)
    requires Vals(vals, x, FreeWorld(vals, id, NONE, n)) == Vals(vals, y, FreeWorld(vals, id, NONE, n))
    ensures x == y
  {
    hide FreeWorld; hide Meant; hide Val; hide Spoken;
    var w := FreeWorld(vals, id, NONE, n);
    forall k | 0 <= k < |x| ensures x[k] == y[k] {
      assert Vals(vals, x, w)[k] == Vals(vals, y, w)[k];
      FreeMeans(vals, id, pushed, n, x[k]);
      FreeMeans(vals, id, pushed, n, y[k]);
      MeantInjective(vals, id, NONE, pushed, x[k], y[k]);
    }
  }

  /** Both diagrams come from terms that only wire, push, call and branch. */
  ghost predicate BothFormed(a: Arena, l: Tree, r: Tree, d: DiagId, e: DiagId)
    requires a.Ok()
  {
    && l.Ok() && r.Ok() && l.Effect() == r.Effect() && Distinct(a.vals)
    && HasInputs(a.vals, l.Effect().inputs) && Formed(a, l, d) && Formed(a, r, e)
  }

  lemma InputsSpoken(vals: seq<ValNode>, stack: seq<ValId>, pushed: set<Value>)
    requires WiresOk(vals) && InputWires(vals, stack)
    ensures AllSpoken(vals, stack, pushed)
  {
  }

  /** Complete for terms that wire, push, call and branch: what no reading and no truth tells apart is one diagram. */
  lemma AlikeIsOneDiagram(a: Arena, l: Tree, r: Tree, d: DiagId, e: DiagId)
    requires a.Ok() && DistinctDiags(a.diags) && NodesSorted(a) && BothFormed(a, l, r, d, e)
    requires Opaque(l) && Opaque(r) && Alike(l, r)
    requires d < |a.diags| && e < |a.diags| && PlainDiag(a, d) && PlainDiag(a, e)
    ensures d == e
  {
    hide Walks; hide NodesSorted; hide DistinctDiags; hide PlainDiag; hide Alike; hide Distinct; hide Opaque;
    hide Formed;
    var stack: seq<ValId> :| |stack| == l.Effect().inputs && InputWires(a.vals, stack);
    forall truth: iset<ValId> ensures Chosen(a, d, truth) == Chosen(a, e, truth) {
      AlikeChosen(a, l, r, d, e, stack, truth);
    }
    ChooseAlikeIsOne(a, d, e);
  }

  lemma AlikeChosen(a: Arena, l: Tree, r: Tree, d: DiagId, e: DiagId, stack: seq<ValId>, truth: iset<ValId>)
    requires a.Ok() && BothFormed(a, l, r, d, e) && Opaque(l) && Opaque(r) && Alike(l, r)
    requires d < |a.diags| && e < |a.diags| && |stack| == l.Effect().inputs && InputWires(a.vals, stack)
    ensures Chosen(a, d, truth) == Chosen(a, e, truth)
  {
    hide Walks; hide FreeWorld; hide Distinct; hide Opaque; hide Spoken; hide Chosen; hide TrueValues; hide Val;
    hide RunBy;
    var pushed := Pushed(l) + Pushed(r);
    var id := Unused(pushed);
    var n := InputsRead(a.vals);
    var w := FreeWorld(a.vals, id, NONE, n);
    var values := TrueValues(a.vals, truth, w, pushed);
    var (x, y) := (Chosen(a, d, truth), Chosen(a, e, truth));
    assert Walked(a, l, stack, [], d) && Walked(a, r, stack, [], e) && Heeds([], truth);
    FreeTells(a.vals, id, pushed, n, truth);
    hide Formed; hide Pushed;
    InputsSpoken(a.vals, stack, pushed);
    WalksRun(a.vals, l, stack, truth, x, pushed, w, values);
    WalksRun(a.vals, r, stack, truth, y, pushed, w, values);
    WalksSpoken(a.vals, l, stack, truth, x, pushed);
    WalksSpoken(a.vals, r, stack, truth, y, pushed);
    FreeApart(a.vals, id, pushed, n, x, y);
  }

  /** And sound for them in the same sense, beyond what `OneDiagramIsSame` says. */
  lemma OneDiagramIsAlike(a: Arena, l: Tree, r: Tree, d: DiagId)
    requires a.Ok() && BothFormed(a, l, r, d, d) && Opaque(l) && Opaque(r) && d < |a.diags|
    ensures Alike(l, r)
  {
    hide Walks; hide RunBy; hide Val; hide Spoken; hide Opaque; hide Distinct; hide Chosen; hide Tree.Effect;
    hide Tree.Ok;
    hide Walked; hide Tells; hide Pushed;
    var pushed := Pushed(l) + Pushed(r);
    var stack: seq<ValId> :| |stack| == l.Effect().inputs && InputWires(a.vals, stack);
    assert Walked(a, l, stack, [], d) && Walked(a, r, stack, [], d);
    forall calls: Interp, values: iset<Value>, s: seq<Value> | Faithful(values, pushed) && |s| == l.Effect().inputs
      ensures RunBy(l, calls, values, s) == RunBy(r, calls, values, s)
    {
      var w := World(calls, s);
      var truth := iset v: ValId | v < |a.vals| && Val(a.vals, v, w) in values;
      assert Tells(a.vals, truth, w, values, pushed) by { CarriedTells(a.vals, truth, w, values, pushed); }
      RunsChosen(a, l, stack, d, truth, pushed, w, values);
      RunsChosen(a, r, stack, d, truth, pushed, w, values);
    }
  }

  lemma CarriedTells(vals: seq<ValNode>, truth: iset<ValId>, w: World, values: iset<Value>, pushed: set<Value>)
    requires WiresOk(vals) && Faithful(values, pushed)
    requires truth == iset v: ValId | v < |vals| && Val(vals, v, w) in values
    ensures Tells(vals, truth, w, values, pushed)
  {
  }

  /** A term leaves what the leaf chosen for it carries. */
  lemma RunsChosen(
    a: Arena, t: Tree, stack: seq<ValId>, d: DiagId, truth: iset<ValId>, pushed: set<Value>, w: World,
    values: iset<Value>)
    requires a.Ok() && t.Ok() && Opaque(t) && Pushed(t) <= pushed && |stack| == t.Effect().inputs == |w.env|
    requires InputWires(a.vals, stack) && d < |a.diags| && Walked(a, t, stack, [], d)
    requires Tells(a.vals, truth, w, values, pushed)
    ensures RunBy(t, w.calls, values, w.env) == Vals(a.vals, Chosen(a, d, truth), w)
  {
    hide Walks; hide RunBy; hide Val; hide Spoken; hide Opaque; hide Chosen; hide Tells; hide Pushed; hide Tree.Ok;
    hide Tree.Effect;
    InputsSpoken(a.vals, stack, pushed);
    assert Heeds([], truth);
    InputsCarry(a.vals, stack, w);
    WalksRun(a.vals, t, stack, truth, Chosen(a, d, truth), pushed, w, values);
  }

  lemma InputsCarry(vals: seq<ValNode>, stack: seq<ValId>, w: World)
    requires WiresOk(vals) && InputWires(vals, stack) && |stack| == |w.env|
    ensures Vals(vals, stack, w) == w.env
  {
  }

  // ---- where what is tested is used for nothing else ----

  /** Every leaf's wires are inputs, literals and calls, with nothing beneath them that is tested. */
  ghost predicate LeavesApart(a: Arena, d: DiagId, tested: set<ValId>, pushed: set<Value>)
    requires a.Ok() && d < |a.diags|
    decreases d
  {
    assert a.diags[d].Below(d, |a.vals|);
    match a.diags[d]
    case Leaf(vs) =>
      AllSpoken(a.vals, vs, pushed) && forall k | 0 <= k < |vs| :: Clear(a.vals, Verdicts(tested, iset{}), vs[k])
    case Branch(_, t, f) => LeavesApart(a, t, tested, pushed) && LeavesApart(a, f, tested, pushed)
  }

  /** The two diagrams decide on inputs and calls, and on none of these does anything else depend. */
  ghost predicate Apart(a: Arena, d: DiagId, e: DiagId, pushed: set<Value>)
    requires a.Ok() && d < |a.diags| && e < |a.diags|
  {
    var tested := Tests(a.diags, d) + Tests(a.diags, e);
    && TestsApart(a.vals, tested, pushed)
    && LeavesApart(a, d, tested, pushed) && LeavesApart(a, e, tested, pushed)
  }

  /** Read off the given truths, a diagram leaves what the leaf it chooses carries. */
  lemma {:induction false} DiagChosen(a: Arena, d: DiagId, truth: iset<ValId>, w: World)
    requires a.Ok() && d < |a.diags|
    requires forall c | c in Tests(a.diags, d) :: c < |a.vals| && (Val(a.vals, c, w).Truthy() <==> c in truth)
    ensures Diag(a, d, w) == Vals(a.vals, Chosen(a, d, truth), w)
    decreases d
  {
    assert a.diags[d].Below(d, |a.vals|);
    if a.diags[d].Branch? {
      assert a.diags[d].cond in Tests(a.diags, d);
      DiagChosen(a, a.diags[d].ifTrue, truth, w);
      DiagChosen(a, a.diags[d].ifFalse, truth, w);
    }
  }

  lemma {:induction false} ChosenApart(
    a: Arena, d: DiagId, verdicts: Verdicts, pushed: set<Value>, truth: iset<ValId>)
    requires a.Ok() && d < |a.diags| && LeavesApart(a, d, verdicts.tested, pushed)
    ensures AllSpoken(a.vals, Chosen(a, d, truth), pushed)
    ensures forall k | 0 <= k < |Chosen(a, d, truth)| :: Clear(a.vals, verdicts, Chosen(a, d, truth)[k])
    decreases d
  {
    assert a.diags[d].Below(d, |a.vals|);
    if a.diags[d].Branch? {
      var arm := if a.diags[d].cond in truth then a.diags[d].ifTrue else a.diags[d].ifFalse;
      ChosenApart(a, arm, verdicts, pushed, truth);
    }
  }

  lemma ApartIsPlain(a: Arena, d: DiagId, e: DiagId, pushed: set<Value>)
    requires a.Ok() && d < |a.diags| && e < |a.diags| && Apart(a, d, e, pushed)
    ensures PlainDiag(a, d) && PlainDiag(a, e)
  {
    forall c | c in Tests(a.diags, d) + Tests(a.diags, e) ensures EqualToLiteral(a.vals, c).None? {
      assert a.vals[c].Below(c) && Spoken(a.vals, c, pushed);
    }
  }

  /** Complete where what is tested is used for nothing else: programs that are the same are one diagram. */
  lemma SameIsOneDiagram(a: Arena, l: Tree, r: Tree, d: DiagId, e: DiagId, pushed: set<Value>)
    requires a.Ok() && Distinct(a.vals) && DistinctDiags(a.diags) && NodesSorted(a)
    requires NormalRight(a, l, d) && NormalRight(a, r, e) && Apart(a, d, e, pushed) && Same(l, r)
    ensures d == e
  {
    hide NodesSorted; hide DistinctDiags; hide PlainDiag; hide Distinct; hide Same; hide Apart; hide NormalRight;
    NormalIsThere(a, l, d);
    NormalIsThere(a, r, e);
    ApartIsPlain(a, d, e, pushed);
    forall truth: iset<ValId> ensures Chosen(a, d, truth) == Chosen(a, e, truth) {
      SameChosen(a, l, r, d, e, pushed, truth);
    }
    ChooseAlikeIsOne(a, d, e);
  }

  lemma NormalIsThere(a: Arena, t: Tree, d: DiagId)
    requires a.Ok() && NormalRight(a, t, d)
    ensures d < |a.diags|
  {
  }

  lemma SameChosen(a: Arena, l: Tree, r: Tree, d: DiagId, e: DiagId, pushed: set<Value>, truth: iset<ValId>)
    requires a.Ok() && Distinct(a.vals) && NormalRight(a, l, d) && NormalRight(a, r, e) && Same(l, r)
    requires Apart(a, d, e, pushed)
    ensures Chosen(a, d, truth) == Chosen(a, e, truth)
  {
    var verdicts := Verdicts(Tests(a.diags, d) + Tests(a.diags, e), truth);
    var id := Unused(pushed);
    var n := InputsRead(a.vals) + l.Effect().inputs;
    var w := FreeWorld(a.vals, id, verdicts, n);
    var m := l.Effect().inputs;
    assert Run(l, w.calls, w.env[..m]) == Run(r, w.calls, w.env[..m]);
    assert Diag(a, d, w) == Diag(a, e, w);
    hide NormalRight; hide Run; hide Same; hide Diag; hide FreeWorld; hide Val; hide Chosen; hide Distinct; hide Spoken;
    hide Tests; hide TestsApart; hide LeavesApart; hide Meant;
    VerdictsHold(a, verdicts, pushed, id, n);
    DiagChosen(a, d, truth, w);
    DiagChosen(a, e, truth, w);
    ChosenApart(a, d, verdicts, pushed, truth);
    ChosenApart(a, e, verdicts, pushed, truth);
    ApartCarries(a.vals, id, verdicts, pushed, n, Chosen(a, d, truth), Chosen(a, e, truth));
  }

  lemma VerdictsHold(a: Arena, verdicts: Verdicts, pushed: set<Value>, id: nat, n: nat)
    requires a.Ok() && Distinct(a.vals) && Fresh(id, pushed) && TestsApart(a.vals, verdicts.tested, pushed)
    requires forall x | 0 <= x < |a.vals| && a.vals[x].Var? :: a.vals[x].i < n
    ensures forall c | c in verdicts.tested ::
      c < |a.vals| && (Val(a.vals, c, FreeWorld(a.vals, id, verdicts, n)).Truthy() <==> c in verdicts.truth)
  {
    hide FreeWorld; hide Val; hide Distinct; hide Spoken; hide Beneath;
    forall c | c in verdicts.tested
      ensures c < |a.vals|
      ensures Val(a.vals, c, FreeWorld(a.vals, id, verdicts, n)).Truthy() <==> c in verdicts.truth
    {
      FreeCarries(a.vals, id, verdicts, pushed, n, c);
    }
  }

  lemma ApartCarries(
    vals: seq<ValNode>, id: nat, verdicts: Verdicts, pushed: set<Value>, n: nat, x: seq<ValId>, y: seq<ValId>)
    requires WiresOk(vals) && Distinct(vals) && Fresh(id, pushed) && TestsApart(vals, verdicts.tested, pushed)
    requires forall x | 0 <= x < |vals| && vals[x].Var? :: vals[x].i < n
    requires All(x, |vals|) && AllSpoken(vals, x, pushed) && forall k | 0 <= k < |x| :: Clear(vals, verdicts, x[k])
    requires All(y, |vals|) && AllSpoken(vals, y, pushed) && forall k | 0 <= k < |y| :: Clear(vals, verdicts, y[k])
    requires Vals(vals, x, FreeWorld(vals, id, verdicts, n)) == Vals(vals, y, FreeWorld(vals, id, verdicts, n))
    ensures x == y
  {
    hide FreeWorld; hide Val; hide Distinct; hide Spoken; hide TestsApart; hide Clear; hide Meant;
    var w := FreeWorld(vals, id, verdicts, n);
    forall k | 0 <= k < |x| ensures x[k] == y[k] {
      assert Vals(vals, x, w)[k] == Vals(vals, y, w)[k];
      FreeCarries(vals, id, verdicts, pushed, n, x[k]);
      FreeCarries(vals, id, verdicts, pushed, n, y[k]);
      MeantInjective(vals, id, verdicts, pushed, x[k], y[k]);
    }
  }

  // ---- terms with instructions ----

  /** In every arena, whichever conditions hold, the two terms leave the same wires. */
  ghost predicate Parallel(l: Tree, r: Tree) {
    forall vals: seq<ValNode>, stack: seq<ValId>, truth: iset<ValId>, x: seq<ValId>, y: seq<ValId>
      {:trigger Walks(vals, l, stack, truth, x), Walks(vals, r, stack, truth, y)} |
      && WiresOk(vals) && Distinct(vals) && AllUnfolded(vals)
      && |stack| == l.Effect().inputs && InputWires(vals, stack)
      && Walks(vals, l, stack, truth, x) && Walks(vals, r, stack, truth, y) :: x == y
  }

  lemma ParallelIsOneDiagram(a: Arena, l: Tree, r: Tree, d: DiagId, e: DiagId)
    requires a.Ok() && DistinctDiags(a.diags) && NodesSorted(a) && AllUnfolded(a.vals) && BothFormed(a, l, r, d, e)
    requires Parallel(l, r) && d < |a.diags| && e < |a.diags| && PlainDiag(a, d) && PlainDiag(a, e)
    ensures d == e
  {
    hide Walks; hide NodesSorted; hide DistinctDiags; hide PlainDiag; hide Distinct; hide AllUnfolded;
    var stack: seq<ValId> :| |stack| == l.Effect().inputs && InputWires(a.vals, stack);
    assert Walked(a, l, stack, [], d) && Walked(a, r, stack, [], e);
    forall truth: iset<ValId> ensures Chosen(a, d, truth) == Chosen(a, e, truth) {
      assert Heeds([], truth);
      assert Walks(a.vals, l, stack, truth, Chosen(a, d, truth)) && Walks(a.vals, r, stack, truth, Chosen(a, e, truth));
    }
    ChooseAlikeIsOne(a, d, e);
  }

  lemma {:induction false} OpaqueComparesNothing(t: Tree)
    requires Opaque(t)
    ensures NoEqual(t)
    decreases t
  {
    match t
    case Compose(l, r) =>
      OpaqueComparesNothing(l);
      OpaqueComparesNothing(r);
    case Par(l, r) =>
      OpaqueComparesNothing(l);
      OpaqueComparesNothing(r);
    case Branch(x, y) =>
      OpaqueComparesNothing(x);
      OpaqueComparesNothing(y);
    case _ =>
  }

  // ---- the answer ----

  /** The two terms' diagrams in one arena, in which equal nodes are one index and every node is sorted. */
  ghost predicate Compared(a: Arena, l: Tree, r: Tree, d: DiagId, e: DiagId) {
    && a.Ok() && Distinct(a.vals) && DistinctDiags(a.diags) && NodesSorted(a) && AllUnfolded(a.vals)
    && NormalRight(a, l, d) && NormalRight(a, r, e)
  }

  lemma ContextHolds(ctx: Ctx)
    requires ctx.Valid()
    ensures ctx.A().Ok() && Distinct(ctx.vals) && DistinctDiags(ctx.diags) && NodesSorted(ctx.A())
    ensures AllUnfolded(ctx.vals)
  {
    ctx.AllDistinct();
  }

  lemma NothingCompared()
    ensures EqualFree([])
  {
  }

  lemma OpaqueIsFree(l: Tree, r: Tree)
    ensures Opaque(l) && Opaque(r) ==> NoEqual(l) && NoEqual(r)
  {
    if Opaque(l) { OpaqueComparesNothing(l); }
    if Opaque(r) { OpaqueComparesNothing(r); }
  }

  lemma EqualFreeDiag(a: Arena, t: Tree, d: DiagId)
    requires a.Ok() && EqualFree(a.vals) && NormalRight(a, t, d)
    ensures d < |a.diags| && PlainDiag(a, d)
  {
    TestsAreWires(a, d);
    EqualFreeIsPlain(a.vals, Tests(a.diags, d));
  }

  /** What comparing the two indices says. */
  lemma Answered(a: Arena, l: Tree, r: Tree, d: DiagId, e: DiagId)
    requires Compared(a, l, r, d, e) && l.Effect() == r.Effect()
    requires NoEqual(l) && NoEqual(r) ==>
      d < |a.diags| && e < |a.diags| && BothFormed(a, l, r, d, e) && PlainDiag(a, d) && PlainDiag(a, e)
    ensures d < |a.diags| && e < |a.diags| && (d == e ==> Same(l, r))
    ensures PlainDiag(a, d) && PlainDiag(a, e) && ChooseAlike(a, d, e) ==> d == e
    ensures (exists pushed :: Apart(a, d, e, pushed)) ==> (d == e) == Same(l, r)
    ensures NoEqual(l) && NoEqual(r) && Parallel(l, r) ==> d == e
    ensures Opaque(l) && Opaque(r) ==> (d == e) == Alike(l, r)
    ensures Opaque(l) && Opaque(r) && Straight(l) && Straight(r) ==> (d == e) == Same(l, r)
  {
    hide NormalRight; hide Same; hide Alike; hide Opaque; hide NoEqual; hide Straight; hide Parallel; hide Formed;
    hide PlainDiag; hide NodesSorted; hide AllUnfolded; hide Distinct; hide DistinctDiags; hide Apart;
    hide ChooseAlike; hide HasInputs; hide BothFormed;
    NormalIsThere(a, l, d);
    NormalIsThere(a, r, e);
    OpaqueIsFree(l, r);
    if d == e { OneDiagramIsSame(a, l, r, d); }
    if PlainDiag(a, d) && PlainDiag(a, e) && ChooseAlike(a, d, e) { ChooseAlikeIsOne(a, d, e); }
    if pushed :| Apart(a, d, e, pushed) && Same(l, r) { SameIsOneDiagram(a, l, r, d, e, pushed); }
    if NoEqual(l) && NoEqual(r) && Parallel(l, r) { ParallelIsOneDiagram(a, l, r, d, e); }
    if Opaque(l) && Opaque(r) {
      if d == e { OneDiagramIsAlike(a, l, r, d); }
      if Alike(l, r) { AlikeIsOneDiagram(a, l, r, d, e); }
      if Straight(l) && Straight(r) { StraightAlike(l, r); }
    }
  }

  /**
   * Both sides into one arena, and one integer compared with another. `Some(true)` is always right, and there is
   * always an answer for terms without `equal`.
   *
   * Yes is the answer wherever the two diagrams have plain conditions and choose leaves of the same wires whatever
   * holds, and so for terms without `equal` that leave the same wires in every arena. For terms that only wire, push,
   * call and branch it is the answer exactly to terms that nothing tells apart, the truth of values being as open as
   * what the calls answer; where nothing branches, or what is tested is used for nothing else, exactly to terms that
   * are the same.
   */
  method OneDiagram(terms: Context, lhs: TermIndex, rhs: TermIndex, fuel: nat)
    returns (r: Option<bool>, ghost a: Arena, ghost d: DiagId, ghost e: DiagId)
    requires terms.Valid() && terms.Has(lhs) && terms.Has(rhs) && terms.At(lhs).Ok() && terms.At(rhs).Ok()
    requires terms.At(lhs).Effect() == terms.At(rhs).Effect()
    ensures r == Some(true) ==> Same(terms.At(lhs), terms.At(rhs))
    ensures NoEqual(terms.At(lhs)) && NoEqual(terms.At(rhs)) ==> r.Some?
    ensures r.Some? ==> Compared(a, terms.At(lhs), terms.At(rhs), d, e) && r.value == (d == e)
    ensures r.Some? && PlainDiag(a, d) && PlainDiag(a, e) && ChooseAlike(a, d, e) ==> r == Some(true)
    ensures r.Some? && (exists pushed :: Apart(a, d, e, pushed)) ==> r == Some(Same(terms.At(lhs), terms.At(rhs)))
    ensures NoEqual(terms.At(lhs)) && NoEqual(terms.At(rhs)) ==>
      BothFormed(a, terms.At(lhs), terms.At(rhs), d, e)
      && (Parallel(terms.At(lhs), terms.At(rhs)) ==> r == Some(true))
    ensures Opaque(terms.At(lhs)) && Opaque(terms.At(rhs)) ==> r == Some(Alike(terms.At(lhs), terms.At(rhs)))
    ensures Opaque(terms.At(lhs)) && Opaque(terms.At(rhs)) && Straight(terms.At(lhs)) && Straight(terms.At(rhs)) ==>
      r == Some(Same(terms.At(lhs), terms.At(rhs)))
  {
    hide NormalRight; hide Same; hide Alike; hide Opaque; hide NoEqual; hide Straight; hide Parallel; hide Formed;
    hide EqualFree; hide PlainDiag; hide NodesSorted; hide AllUnfolded; hide Distinct; hide DistinctDiags; hide TreeAt;
    hide Ordered; hide Apart; hide ChooseAlike; hide HasInputs;
    ghost var (l, rt) := (terms.At(lhs), terms.At(rhs));
    var ctx := new Ctx(terms.At(lhs).Effect().inputs);
    a, d, e := ctx.A(), 0, 0;
    NothingCompared();
    OpaqueIsFree(l, rt);
    var x := NormalForm(ctx, terms, lhs, fuel);
    if x.None? { return None, a, d, e; }
    ghost var a1 := ctx.A();
    var y := NormalForm(ctx, terms, rhs, fuel);
    if y.None? { return None, a, d, e; }
    r := Some(x.value == y.value);
    a, d, e := ctx.A(), x.value, y.value;
    NormalStays(a1, a, l, d);
    ContextHolds(ctx);
    if NoEqual(l) && NoEqual(rt) {
      FormedStays(a1, a, l, d);
      EqualFreeDiag(a, l, d);
      EqualFreeDiag(a, rt, e);
    }
    Answered(a, l, rt, d, e);
  }

  /**
   * Two diagrams that decide on nothing equal to a literal, whatever else is in the arena, and choose the
   * same leaf under every truth of their conditions, are one index; each of them is sorted.
   */
  lemma PlainIsCanonical(ctx: Ctx, d: DiagId, e: DiagId)
    requires ctx.Valid() && d < |ctx.diags| && e < |ctx.diags|
    requires PlainDiag(ctx.A(), d) && PlainDiag(ctx.A(), e)
    requires forall truth: iset<ValId> :: Choose(ctx.diags, d, truth) == Choose(ctx.diags, e, truth)
    ensures d == e && Sorted(ctx.A(), d)
  {
    hide ctx.MemosRight; hide ctx.AskedOk;
    ctx.AllDistinct();
    assert forall truth: iset<ValId> :: Choose(ctx.A().diags, d, truth) == Choose(ctx.A().diags, e, truth);
    Canonical(ctx.A(), d, e);
    PlainIsSorted(ctx.A(), d);
  }
}
