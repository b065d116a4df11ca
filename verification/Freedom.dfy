/** Readings of calls and inputs under which different wires carry different values, but for some that are tested. */
module Freedom {
  import opened Values
  import opened Prims
  import opened Terms
  import opened Wires
  import opened Order
  import opened Supports

  // ---- a symbol that is not in use ----

  predicate Mentions(v: Value, id: nat) {
    match v
    case Symbol(i) => i == id
    case Tuple(elements) => exists k | 0 <= k < |elements| :: Mentions(elements[k], id)
    case _ => false
  }

  /** Beyond every symbol the value mentions. */
  lemma {:induction false} Beyond(v: Value) returns (bound: nat)
    ensures forall id: nat | Mentions(v, id) :: id < bound
    decreases v, 1
  {
    match v
    case Symbol(i) => bound := i + 1;
    case Tuple(elements) => bound := BeyondAll(v, elements);
    case _ => bound := 0;
  }

  lemma {:induction false} BeyondAll(whole: Value, vs: seq<Value>) returns (bound: nat)
    requires forall k | 0 <= k < |vs| :: vs[k] < whole
    ensures forall k, id: nat | 0 <= k < |vs| && Mentions(vs[k], id) :: id < bound
    decreases whole, 0, |vs|
  {
    bound := 0;
    if vs != [] {
      var first := Beyond(vs[0]);
      var rest := BeyondAll(whole, vs[1..]);
      bound := if first < rest then rest else first;
      forall k, id: nat | 0 <= k < |vs| && Mentions(vs[k], id) ensures id < bound {
        assert k > 0 ==> vs[k] == vs[1..][k - 1];
      }
    }
  }

  /** A symbol that none of these values mentions. */
  lemma {:induction false} Unused(pushed: set<Value>) returns (id: nat)
    ensures forall v, n: nat | v in pushed && n >= id :: !Mentions(v, n)
    decreases pushed
  {
    id := 0;
    if pushed != {} {
      var v :| v in pushed;
      var rest := Unused(pushed - {v});
      var bound := Beyond(v);
      id := if bound < rest then rest else bound;
      forall x, n: nat | x in pushed && n >= id ensures !Mentions(x, n) {
        assert x == v || x in pushed - {v};
      }
    }
  }

  // ---- what the wires are to carry ----

  /** An input under a name of its own. */
  function Name(id: nat, i: nat): Value {
    Value.Tuple([Symbol(id), Symbol(i)])
  }

  /** Output `k` of a call, spelled as the call itself: equal answers come from equal calls. */
  function Code(id: nat, target: SentenceIndex, arity: Arity, args: seq<Value>, k: nat): Value {
    Value.Tuple([Symbol(id), Symbol(target), Symbol(arity.inputs), Symbol(arity.outputs), Symbol(k), Value.Tuple(args)])
  }

  lemma Marked(id: nat, i: nat, target: SentenceIndex, arity: Arity, args: seq<Value>, k: nat)
    ensures Mentions(Name(id, i), id) && Mentions(Code(id, target, arity, args, k), id)
  {
    assert Mentions(Name(id, i).elements[0], id) && Mentions(Code(id, target, arity, args, k).elements[0], id);
  }

  /** The wires whose truth is given, and which of them are true. */
  datatype Verdicts = Verdicts(tested: set<ValId>, truth: iset<ValId>)

  ghost function Meant(vals: seq<ValNode>, id: nat, verdicts: Verdicts, v: ValId): Value
    requires WiresOk(vals) && v < |vals|
    decreases v
  {
    assert vals[v].Below(v);
    if v in verdicts.tested then Bool(v in verdicts.truth)
    else match vals[v]
      case Var(i) => Name(id, i)
      case Lit(x) => x
      case App(op, args) =>
        Coded(op, id, seq(|args|, k requires 0 <= k < |args| => Meant(vals, id, verdicts, args[k])), 0)
      case Proj(index, op, args) =>
        Coded(op, id, seq(|args|, k requires 0 <= k < |args| => Meant(vals, id, verdicts, args[k])), index)
  }

  function Coded(op: Op, id: nat, args: seq<Value>, k: nat): Value {
    match op
    case Call(target, arity) => Code(id, target, arity, args, k)
    case Prim(_) => UNIT
  }

  ghost function AllMeant(vals: seq<ValNode>, id: nat, verdicts: Verdicts, vs: seq<ValId>): (r: seq<Value>)
    requires WiresOk(vals) && All(vs, |vals|)
    ensures |r| == |vs| && forall k | 0 <= k < |vs| :: r[k] == Meant(vals, id, verdicts, vs[k])
  {
    seq(|vs|, k requires 0 <= k < |vs| => Meant(vals, id, verdicts, vs[k]))
  }

  /** Which output of its box a wire is. */
  function Slot(node: ValNode): nat
    requires node.App? || node.Proj?
  {
    if node.App? then 0 else node.index
  }

  lemma MeantOfBox(vals: seq<ValNode>, id: nat, verdicts: Verdicts, v: ValId)
    requires WiresOk(vals) && v < |vals| && (vals[v].App? || vals[v].Proj?) && v !in verdicts.tested
    ensures vals[v].Below(v) && All(vals[v].args, |vals|)
    ensures Meant(vals, id, verdicts, v)
      == Coded(vals[v].op, id, AllMeant(vals, id, verdicts, vals[v].args), Slot(vals[v]))
  {
    var args := vals[v].args;
    assert vals[v].Below(v);
    assert AllMeant(vals, id, verdicts, args)
      == seq(|args|, k requires 0 <= k < |args| => Meant(vals, id, verdicts, args[k]));
  }

  // ---- different wires are meant differently ----

  /** None of the wires whose truth is given is beneath `v`. */
  predicate Clear(vals: seq<ValNode>, verdicts: Verdicts, v: ValId)
    requires WiresOk(vals) && v < |vals|
  {
    forall c | c in verdicts.tested :: !Beneath(vals, v, c)
  }

  lemma ClearArgs(vals: seq<ValNode>, verdicts: Verdicts, v: ValId)
    requires WiresOk(vals) && v < |vals| && Clear(vals, verdicts, v) && (vals[v].App? || vals[v].Proj?)
    ensures vals[v].Below(v) && v !in verdicts.tested
    ensures forall k | 0 <= k < |vals[v].args| :: Clear(vals, verdicts, vals[v].args[k])
  {
    assert Beneath(vals, v, v);
    ArgsBeneath(vals, v);
  }

  lemma ArgsBeneath(vals: seq<ValNode>, v: ValId)
    requires WiresOk(vals) && v < |vals| && (vals[v].App? || vals[v].Proj?)
    ensures vals[v].Below(v)
    ensures forall k, c | 0 <= k < |vals[v].args| && Beneath(vals, vals[v].args[k], c) :: Beneath(vals, v, c) && c != v
  {
    assert vals[v].Below(v);
    forall k, c | 0 <= k < |vals[v].args| && Beneath(vals, vals[v].args[k], c) ensures Beneath(vals, v, c) && c != v {
      BeneathIsOlder(vals, vals[v].args[k], c);
    }
  }

  ghost predicate Fresh(id: nat, pushed: set<Value>) {
    forall v | v in pushed :: !Mentions(v, id)
  }

  lemma {:induction false} MeantInjective(
    vals: seq<ValNode>, id: nat, verdicts: Verdicts, pushed: set<Value>, u: ValId, v: ValId)
    requires WiresOk(vals) && Distinct(vals) && u < |vals| && v < |vals| && Fresh(id, pushed)
    requires Spoken(vals, u, pushed) && Spoken(vals, v, pushed) && Clear(vals, verdicts, u) && Clear(vals, verdicts, v)
    requires Meant(vals, id, verdicts, u) == Meant(vals, id, verdicts, v)
    ensures u == v
    decreases u
  {
    var (nu, nv) := (vals[u], vals[v]);
    assert nu.Below(u) && nv.Below(v) && Beneath(vals, u, u) && Beneath(vals, v, v);
    Shape(vals, id, verdicts, pushed, u);
    Shape(vals, id, verdicts, pushed, v);
    if (nu.App? || nu.Proj?) && (nv.App? || nv.Proj?) {
      ClearArgs(vals, verdicts, u);
      ClearArgs(vals, verdicts, v);
      var (x, y) := (AllMeant(vals, id, verdicts, nu.args), AllMeant(vals, id, verdicts, nv.args));
      assert nu.op == nv.op && x == y && Slot(nu) == Slot(nv);
      forall k | 0 <= k < |nu.args| ensures nu.args[k] == nv.args[k] {
        assert x[k] == y[k];
        MeantInjective(vals, id, verdicts, pushed, nu.args[k], nv.args[k]);
      }
      assert nu.args == nv.args;
    }
    assert nu == nv;
  }

  /** A literal is one that is pushed; an input is its name, and a box the code of its call. */
  lemma Shape(vals: seq<ValNode>, id: nat, verdicts: Verdicts, pushed: set<Value>, v: ValId)
    requires WiresOk(vals) && v < |vals| && Fresh(id, pushed) && Spoken(vals, v, pushed) && v !in verdicts.tested
    ensures vals[v].Lit? ==> Meant(vals, id, verdicts, v) == vals[v].v && !Mentions(vals[v].v, id)
    ensures !vals[v].Lit? ==> Mentions(Meant(vals, id, verdicts, v), id)
    ensures vals[v].Var? ==> Meant(vals, id, verdicts, v) == Name(id, vals[v].i)
    ensures vals[v].App? || vals[v].Proj? ==>
      && vals[v].op.Call? && All(vals[v].args, |vals|) && (forall k | 0 <= k < |vals[v].args| ::
        vals[v].args[k] < |vals| && Spoken(vals, vals[v].args[k], pushed))
      && Meant(vals, id, verdicts, v) == Code(id, vals[v].op.target, vals[v].op.arity,
                                              AllMeant(vals, id, verdicts, vals[v].args), Slot(vals[v]))
  {
    assert vals[v].Below(v);
    match vals[v]
    case Var(i) => Marked(id, i, 0, Arity(0, 0), [], 0);
    case Lit(_) =>
    case _ =>
      MeantOfBox(vals, id, verdicts, v);
      Marked(id, 0, vals[v].op.target, vals[v].op.arity, AllMeant(vals, id, verdicts, vals[v].args), Slot(vals[v]));
  }

  // ---- a world in which they carry it ----

  /** `c` is a wire with a given truth, and that output of this call. */
  ghost predicate Gives(
    vals: seq<ValNode>, id: nat, verdicts: Verdicts, target: SentenceIndex, arity: Arity, args: seq<Value>, k: nat,
    c: ValId)
    requires WiresOk(vals)
  {
    && c in verdicts.tested && c < |vals| && (vals[c].App? || vals[c].Proj?) && Slot(vals[c]) == k
    && vals[c].op == Op.Call(target, arity)
    && All(vals[c].args, |vals|) && AllMeant(vals, id, verdicts, vals[c].args) == args
  }

  ghost function Reply(
    vals: seq<ValNode>, id: nat, verdicts: Verdicts, target: SentenceIndex, arity: Arity, args: seq<Value>, k: nat):
    Value
    requires WiresOk(vals)
  {
    if c: ValId :| Gives(vals, id, verdicts, target, arity, args, k, c) then Bool(c in verdicts.truth)
    else Code(id, target, arity, args, k)
  }

  ghost function FreeCalls(vals: seq<ValNode>, id: nat, verdicts: Verdicts): Interp
    requires WiresOk(vals)
  {
    imap key: (SentenceIndex, Arity, seq<Value>) | true ::
      seq(key.1.outputs, k requires 0 <= k < key.1.outputs => Reply(vals, id, verdicts, key.0, key.1, key.2, k))
  }

  ghost function FreeInput(vals: seq<ValNode>, id: nat, verdicts: Verdicts, i: nat): Value {
    if c: ValId :| c in verdicts.tested && c < |vals| && vals[c] == Var(i) then Bool(c in verdicts.truth)
    else Name(id, i)
  }

  ghost function FreeWorld(vals: seq<ValNode>, id: nat, verdicts: Verdicts, inputs: nat): World
    requires WiresOk(vals)
  {
    World(FreeCalls(vals, id, verdicts),
      seq(inputs, i requires 0 <= i < inputs => FreeInput(vals, id, verdicts, i)))
  }

  /** Only wires of inputs, literals and calls are tested, and none is computed from another. */
  ghost predicate TestsApart(vals: seq<ValNode>, tested: set<ValId>, pushed: set<Value>)
    requires WiresOk(vals)
  {
    forall c | c in tested ::
      && c < |vals| && !vals[c].Lit? && Spoken(vals, c, pushed)
      && forall x | x in tested && x != c :: !Beneath(vals, c, x)
  }

  lemma {:induction false} FreeCarries(
    vals: seq<ValNode>, id: nat, verdicts: Verdicts, pushed: set<Value>, inputs: nat, v: ValId)
    requires WiresOk(vals) && Distinct(vals) && v < |vals| && Fresh(id, pushed)
    requires TestsApart(vals, verdicts.tested, pushed) && Spoken(vals, v, pushed)
    requires v in verdicts.tested || Clear(vals, verdicts, v)
    requires forall x | 0 <= x < |vals| && vals[x].Var? :: vals[x].i < inputs
    ensures Val(vals, v, FreeWorld(vals, id, verdicts, inputs)) == Meant(vals, id, verdicts, v)
    decreases v
  {
    var w := FreeWorld(vals, id, verdicts, inputs);
    assert vals[v].Below(v) && Beneath(vals, v, v);
    if vals[v].App? || vals[v].Proj? {
      ArgsClear(vals, verdicts, pushed, v);
      forall k | 0 <= k < |vals[v].args|
        ensures Val(vals, vals[v].args[k], w) == Meant(vals, id, verdicts, vals[v].args[k])
      {
        FreeCarries(vals, id, verdicts, pushed, inputs, vals[v].args[k]);
      }
      assert Vals(vals, vals[v].args, w) == AllMeant(vals, id, verdicts, vals[v].args);
      BoxCarries(vals, id, verdicts, pushed, inputs, v);
    } else if vals[v].Var? {
      InputCarries(vals, id, verdicts, inputs, v);
    }
  }

  lemma InputCarries(vals: seq<ValNode>, id: nat, verdicts: Verdicts, inputs: nat, v: ValId)
    requires WiresOk(vals) && Distinct(vals) && v < |vals| && vals[v].Var? && vals[v].i < inputs
    ensures Val(vals, v, FreeWorld(vals, id, verdicts, inputs)) == Meant(vals, id, verdicts, v)
  {
    var i := vals[v].i;
    assert FreeWorld(vals, id, verdicts, inputs).env[i] == FreeInput(vals, id, verdicts, i);
    if c: ValId :| c in verdicts.tested && c < |vals| && vals[c] == Var(i) {
      assert c == v;
    }
  }

  /** What a wire with a given truth, or one with none beneath it, was computed from has none beneath it. */
  lemma ArgsClear(vals: seq<ValNode>, verdicts: Verdicts, pushed: set<Value>, v: ValId)
    requires WiresOk(vals) && v < |vals| && (vals[v].App? || vals[v].Proj?) && Spoken(vals, v, pushed)
    requires TestsApart(vals, verdicts.tested, pushed) && (v in verdicts.tested || Clear(vals, verdicts, v))
    ensures vals[v].Below(v) && vals[v].op.Call?
    ensures forall k | 0 <= k < |vals[v].args| ::
      Clear(vals, verdicts, vals[v].args[k]) && Spoken(vals, vals[v].args[k], pushed)
  {
    assert vals[v].Below(v);
    ArgsBeneath(vals, v);
  }

  lemma BoxCarries(
    vals: seq<ValNode>, id: nat, verdicts: Verdicts, pushed: set<Value>, inputs: nat, v: ValId)
    requires WiresOk(vals) && Distinct(vals) && v < |vals| && Fresh(id, pushed) && (vals[v].App? || vals[v].Proj?)
    requires TestsApart(vals, verdicts.tested, pushed) && Spoken(vals, v, pushed)
    requires v in verdicts.tested || Clear(vals, verdicts, v)
    requires All(vals[v].args, |vals|)
    requires
      Vals(vals, vals[v].args, FreeWorld(vals, id, verdicts, inputs)) == AllMeant(vals, id, verdicts, vals[v].args)
    ensures Val(vals, v, FreeWorld(vals, id, verdicts, inputs)) == Meant(vals, id, verdicts, v)
  {
    hide Meant; hide Val; hide FreeWorld; hide Beneath; hide Fresh; hide CallAnswer;
    var w := FreeWorld(vals, id, verdicts, inputs);
    ArgsClear(vals, verdicts, pushed, v);
    ValOfApp(vals, v, w);
    var op := vals[v].op;
    FreeAnswers(vals, id, verdicts, inputs, op.target, op.arity, AllMeant(vals, id, verdicts, vals[v].args),
                Slot(vals[v]));
    ReplyIsMeant(vals, id, verdicts, pushed, v);
  }

  lemma ReplyIsMeant(vals: seq<ValNode>, id: nat, verdicts: Verdicts, pushed: set<Value>, v: ValId)
    requires WiresOk(vals) && Distinct(vals) && v < |vals| && Fresh(id, pushed) && (vals[v].App? || vals[v].Proj?)
    requires TestsApart(vals, verdicts.tested, pushed) && Spoken(vals, v, pushed)
    requires v in verdicts.tested || Clear(vals, verdicts, v)
    requires All(vals[v].args, |vals|) && vals[v].op.Call?
    ensures Reply(vals, id, verdicts, vals[v].op.target, vals[v].op.arity, AllMeant(vals, id, verdicts, vals[v].args),
                  Slot(vals[v])) == Meant(vals, id, verdicts, v)
  {
    hide Spoken; hide Beneath; hide TestsApart; hide Clear; hide Fresh; hide AllMeant;
    var (target, arity) := (vals[v].op.target, vals[v].op.arity);
    var (args, k) := (AllMeant(vals, id, verdicts, vals[v].args), Slot(vals[v]));
    if c: ValId :| Gives(vals, id, verdicts, target, arity, args, k, c) {
      forall c: ValId | Gives(vals, id, verdicts, target, arity, args, k, c) ensures c == v {
        GivenOnce(vals, id, verdicts, pushed, v, c);
      }
    } else {
      assert Gives(vals, id, verdicts, target, arity, args, k, v) == (v in verdicts.tested);
      MeantOfBox(vals, id, verdicts, v);
    }
  }

  lemma FreeAnswers(
    vals: seq<ValNode>, id: nat, verdicts: Verdicts, inputs: nat, target: SentenceIndex, arity: Arity, args: seq<Value>,
    k: nat)
    requires WiresOk(vals) && k < arity.outputs
    ensures CallAnswer(FreeWorld(vals, id, verdicts, inputs).calls, target, arity, args)[k]
      == Reply(vals, id, verdicts, target, arity, args, k)
  {
    hide Reply;
    assert (target, arity, args) in FreeCalls(vals, id, verdicts);
  }

  /** Only one wire is that output of that call. */
  lemma GivenOnce(vals: seq<ValNode>, id: nat, verdicts: Verdicts, pushed: set<Value>, v: ValId, c: ValId)
    requires WiresOk(vals) && Distinct(vals) && v < |vals| && Fresh(id, pushed) && (vals[v].App? || vals[v].Proj?)
    requires TestsApart(vals, verdicts.tested, pushed) && Spoken(vals, v, pushed)
    requires v in verdicts.tested || Clear(vals, verdicts, v)
    requires All(vals[v].args, |vals|) && vals[v].op.Call?
    requires Gives(vals, id, verdicts, vals[v].op.target, vals[v].op.arity, AllMeant(vals, id, verdicts, vals[v].args),
                   Slot(vals[v]), c)
    ensures c == v
  {
    ArgsClear(vals, verdicts, pushed, v);
    ArgsClear(vals, verdicts, pushed, c);
    var (x, y) := (AllMeant(vals, id, verdicts, vals[v].args), AllMeant(vals, id, verdicts, vals[c].args));
    forall k | 0 <= k < |vals[v].args| ensures vals[v].args[k] == vals[c].args[k] {
      assert x[k] == y[k];
      MeantInjective(vals, id, verdicts, pushed, vals[v].args[k], vals[c].args[k]);
    }
    assert vals[v].args == vals[c].args;
    assert vals[v].Below(v) && vals[c].Below(c);
    assert vals[v] == vals[c];
  }
}
