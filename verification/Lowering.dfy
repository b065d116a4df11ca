/** A sentence as a term: arity-exact, and the same program. */
module Lowering {
  import opened Wrappers
  import opened Values
  import opened Prims
  import opened Terms
  import opened Libraries
  import opened Machine
  import opened Meanings

  // ---- the term a sentence stands for ----

  ghost predicate Covered(lib: Library, c: Certificate, s: SentenceIndex) {
    lib.Closed() && Certifies(lib, c) && s in c.arities
  }

  lemma CalleeCovered(lib: Library, c: Certificate, s: SentenceIndex, ip: nat, t: SentenceIndex)
    requires Covered(lib, c, s) && ip < |lib.sentences[s]| && t in lib.sentences[s][ip].Callees()
    ensures Covered(lib, c, t) && c.ranks[t] < c.ranks[s]
  {
    assert Justified(lib, c, s) && Lower(c, s, lib.sentences[s][ip]);
  }

  lemma CalleesCovered(lib: Library, c: Certificate, s: SentenceIndex)
    requires Covered(lib, c, s)
    ensures forall ip | 0 <= ip < |lib.sentences[s]| :: lib.sentences[s][ip].Callees() <= c.arities.Keys
    ensures PrefixEffect(lib.sentences[s], |lib.sentences[s]|, c.arities) == Some(c.arities[s])
  {
    assert Justified(lib, c, s);
    forall ip | 0 <= ip < |lib.sentences[s]| ensures lib.sentences[s][ip].Callees() <= c.arities.Keys {
      assert Lower(c, s, lib.sentences[s][ip]);
    }
  }

  /** Under a certificate every instruction and every prefix of a covered sentence has an effect. */
  lemma PartsHaveEffects(lib: Library, c: Certificate, s: SentenceIndex, k: nat)
    requires Covered(lib, c, s) && k <= |lib.sentences[s]|
    ensures forall ip | 0 <= ip < |lib.sentences[s]| :: lib.sentences[s][ip].Callees() <= c.arities.Keys
    ensures PrefixEffect(lib.sentences[s], k, c.arities).Some?
    ensures PrefixEffect(lib.sentences[s], k, c.arities).value.inputs <= c.arities[s].inputs
    ensures k < |lib.sentences[s]| ==> InstEffect(lib.sentences[s][k], c.arities).Some?
  {
    CalleesCovered(lib, c, s);
    PrefixesHaveEffects(lib.sentences[s], |lib.sentences[s]|, k, c.arities);
  }

  /** The same for one instruction, with what it says about the sentences it mentions. */
  lemma InstHasEffect(lib: Library, c: Certificate, s: SentenceIndex, ip: nat)
    requires Covered(lib, c, s) && ip < |lib.sentences[s]|
    ensures lib.sentences[s][ip].Callees() <= c.arities.Keys
    ensures InstEffect(lib.sentences[s][ip], c.arities).Some?
    ensures match lib.sentences[s][ip]
      case Jump(t) => Covered(lib, c, t) && c.ranks[t] < c.ranks[s]
      case Dip(t) => Covered(lib, c, t) && c.ranks[t] < c.ranks[s]
      case Branch(t, f) =>
        && Covered(lib, c, t) && c.ranks[t] < c.ranks[s]
        && Covered(lib, c, f) && c.ranks[f] < c.ranks[s]
        && CombineBranch(c.arities[t], c.arities[f]).Some?
      case _ => true
  {
    PartsHaveEffects(lib, c, s, ip);
    var inst := lib.sentences[s][ip];
    forall t | t in inst.Callees() ensures Covered(lib, c, t) && c.ranks[t] < c.ranks[s] {
      CalleeCovered(lib, c, s, ip, t);
    }
  }

  lemma {:induction false} PrefixesHaveEffects(insts: Sentence, n: nat, k: nat, arities: map<SentenceIndex, Arity>)
    requires k <= n <= |insts| && forall ip | 0 <= ip < n :: insts[ip].Callees() <= arities.Keys
    requires PrefixEffect(insts, n, arities).Some?
    ensures PrefixEffect(insts, k, arities).Some?
    ensures PrefixEffect(insts, k, arities).value.inputs <= PrefixEffect(insts, n, arities).value.inputs
    ensures k < n ==> InstEffect(insts[k], arities).Some?
    decreases n
  {
    if k < n {
      PrefixesHaveEffects(insts, n - 1, k, arities);
    }
  }

  lemma NextEffect(insts: Sentence, k: nat, arities: map<SentenceIndex, Arity>, before: Arity, next: Arity)
    requires 0 < k <= |insts| && forall ip | 0 <= ip < k :: insts[ip].Callees() <= arities.Keys
    requires PrefixEffect(insts, k - 1, arities) == Some(before) && InstEffect(insts[k - 1], arities) == Some(next)
    ensures PrefixEffect(insts, k, arities) == Some(Extend(before, next))
  {
  }

  lemma OneEffect(insts: Sentence, arities: map<SentenceIndex, Arity>, next: Arity)
    requires |insts| > 0 && insts[0].Callees() <= arities.Keys && InstEffect(insts[0], arities) == Some(next)
    ensures PrefixEffect(insts, 1, arities) == Some(next)
  {
    assert PrefixEffect(insts, 0, arities) == Some(Arity(0, 0));
  }

  lemma ComposedEffect(l: Tree, r: Tree)
    requires l.Ok() && r.Ok()
    ensures Composed(l, r).Ok() && Composed(l, r).Effect() == Extend(l.Effect(), r.Effect())
  {
    hide Tree.Effect; hide Tree.Ok;
    var (have, want) := (l.Effect().outputs, r.Effect().inputs);
    if have < want {
      ComposeShape(Widened(l, want - have), r);
    } else {
      ComposeShape(l, Widened(r, have - want));
    }
  }

  lemma BranchedEffect(t: Tree, f: Tree, arm: Arity)
    requires t.Ok() && f.Ok() && CombineBranch(t.Effect(), f.Effect()) == Some(arm)
    ensures Branched(t, f).Ok? && Branched(t, f).value.Ok()
    ensures Branched(t, f).value.Effect() == Arity(arm.inputs + 1, arm.outputs)
  {
    hide Tree.Effect; hide Tree.Ok;
    if t.Effect().inputs < f.Effect().inputs {
      BranchShape(Widened(t, f.Effect().inputs - t.Effect().inputs), f);
    } else {
      BranchShape(t, Widened(f, t.Effect().inputs - f.Effect().inputs));
    }
  }

  /** A frame runs as the callee's term with `id(1)` as the upper half of a `*`. */
  ghost function LowerDip(t: Tree): (r: Tree)
    requires t.Ok()
    ensures r.Ok() && r.Effect() == Arity(t.Effect().inputs + 1, t.Effect().outputs + 1)
  {
    Tree.Par(t, Tree.Id(1))
  }

  ghost function LowerBranch(t: Tree, f: Tree, arm: Arity): (r: Tree)
    requires t.Ok() && f.Ok() && CombineBranch(t.Effect(), f.Effect()) == Some(arm)
    ensures r.Ok() && Branched(t, f) == Ok(r) && r.Effect() == Arity(arm.inputs + 1, arm.outputs)
  {
    BranchedEffect(t, f, arm);
    Branched(t, f).value
  }

  ghost function LowerArms(lib: Library, c: Certificate, t: SentenceIndex, f: SentenceIndex): (r: Tree)
    requires Covered(lib, c, t) && Covered(lib, c, f) && CombineBranch(c.arities[t], c.arities[f]).Some?
    ensures var arm := CombineBranch(c.arities[t], c.arities[f]).value;
      r.Ok() && r.Effect() == Arity(arm.inputs + 1, arm.outputs)
    decreases if c.ranks[t] < c.ranks[f] then c.ranks[f] else c.ranks[t], 4
  {
    LowerBranch(LowerTarget(lib, c, t), LowerTarget(lib, c, f), CombineBranch(c.arities[t], c.arities[f]).value)
  }

  ghost function LowerInst(lib: Library, c: Certificate, s: SentenceIndex, ip: nat): (t: Tree)
    requires Covered(lib, c, s) && ip < |lib.sentences[s]|
    ensures t.Ok() && lib.sentences[s][ip].Callees() <= c.arities.Keys
    ensures InstEffect(lib.sentences[s][ip], c.arities) == Some(t.Effect())
    decreases c.ranks[s], 1, ip
  {
    InstHasEffect(lib, c, s, ip);
    hide Justified; hide Lower; hide PrefixEffect; hide Branched; hide CombineBranch; hide Library.Closed;
    hide Tree.Ok; hide Tree.Effect;
    var inst := lib.sentences[s][ip];
    match inst
    case Jump(t) => LowerTarget(lib, c, t)
    case Dip(t) => LowerDip(LowerTarget(lib, c, t))
    case Branch(t, f) => LowerArms(lib, c, t, f)
    case _ => LowerLeaf(inst)
  }

  function LowerLeaf(inst: Instruction): (t: Tree)
    requires inst.Local? || inst.Drop? || inst.Copy?
    ensures t.Ok() && inst.Callees() == {}
    ensures forall arities: map<SentenceIndex, Arity> :: InstEffect(inst, arities) == Some(t.Effect())
  {
    match inst
    case Local(prim) => Tree.Op(prim)
    case Drop => Tree.Drop(1)
    case Copy => Tree.Copy(1)
  }

  /** The tree a call stands for: the block's own tree, or a `Call` with the certified arity. */
  ghost function LowerTarget(lib: Library, c: Certificate, t: SentenceIndex): (r: Tree)
    requires Covered(lib, c, t)
    ensures r.Ok() && r.Effect() == c.arities[t]
    ensures lib.names[t] != INLINE_BLOCK ==> r == Tree.Call(t, c.arities[t])
    decreases c.ranks[t], 3
  {
    if lib.names[t] != INLINE_BLOCK then Tree.Call(t, c.arities[t]) else LowerSentence(lib, c, t)
  }

  ghost function LowerPrefix(lib: Library, c: Certificate, s: SentenceIndex, k: nat): (r: Option<Tree>)
    requires Covered(lib, c, s) && k <= |lib.sentences[s]|
    ensures r.None? <==> k == 0
    ensures forall ip | 0 <= ip < k :: lib.sentences[s][ip].Callees() <= c.arities.Keys
    ensures r.Some? ==> r.value.Ok() && PrefixEffect(lib.sentences[s], k, c.arities) == Some(r.value.Effect())
    decreases c.ranks[s], 1, k
  {
    PartsHaveEffects(lib, c, s, k);
    hide Justified; hide Lower; hide InstEffect; hide PrefixEffect; hide Tree.Effect; hide Tree.Ok; hide Composed;
    if k == 0 then None
    else
      var next := LowerInst(lib, c, s, k - 1);
      match LowerPrefix(lib, c, s, k - 1)
      case None =>
        OneEffect(lib.sentences[s], c.arities, next.Effect());
        Some(next)
      case Some(prefix) =>
        ComposedEffect(prefix, next);
        NextEffect(lib.sentences[s], k, c.arities, prefix.Effect(), next.Effect());
        Some(Composed(prefix, next))
  }

  /** The term of a sentence is well formed and has exactly the inferred arity. */
  ghost function LowerSentence(lib: Library, c: Certificate, s: SentenceIndex): (t: Tree)
    requires Covered(lib, c, s)
    ensures t.Ok() && t.Effect() == c.arities[s]
    decreases c.ranks[s], 2
  {
    assert Justified(lib, c, s);
    match LowerPrefix(lib, c, s, |lib.sentences[s]|)
    case None => Tree.Id(0)
    case Some(t) => t
  }

  lemma PrefixGrows(lib: Library, c: Certificate, s: SentenceIndex, k: nat)
    requires Covered(lib, c, s) && k <= |lib.sentences[s]|
    ensures k == 1 ==> LowerPrefix(lib, c, s, k) == Some(LowerInst(lib, c, s, k - 1))
    ensures k > 1 ==>
      LowerPrefix(lib, c, s, k) == Some(Composed(LowerPrefix(lib, c, s, k - 1).value, LowerInst(lib, c, s, k - 1)))
  {
  }

  // ---- the term says what the sentence says, its calls left open ----

  /**
   * Whatever the calls are read as, the lowered term does what the sentence does with its named calls so answered and
   * its `<inline>` blocks entered.
   */
  lemma {:induction false} SentenceAnswered(
    lib: Library, c: Certificate, calls: Interp, s: SentenceIndex, stack: seq<Value>)
    requires Covered(lib, c, s) && |stack| >= c.arities[s].inputs
    ensures AnsweredFrom(lib, c, calls, s, 0, stack) == Some(RunOn(LowerSentence(lib, c, s), calls, stack))
    decreases c.ranks[s], 2, 0
  {
    var n := |lib.sentences[s]|;
    PrefixAnswered(lib, c, calls, s, n, stack);
    if n == 0 {
      assert RunOn(Tree.Id(0), calls, stack) == stack;
    }
  }

  /** After `k` instructions the stack is what the first `k` factors of the term leave. */
  lemma {:induction false} PrefixAnswered(
    lib: Library, c: Certificate, calls: Interp, s: SentenceIndex, k: nat, stack: seq<Value>)
    requires Covered(lib, c, s) && k <= |lib.sentences[s]| && |stack| >= c.arities[s].inputs
    ensures k == 0 ==> AnsweredFrom(lib, c, calls, s, 0, stack) == AnsweredFrom(lib, c, calls, s, k, stack)
    ensures k > 0 ==> LowerPrefix(lib, c, s, k).value.Effect().inputs <= |stack|
    ensures k > 0 ==>
      AnsweredFrom(lib, c, calls, s, 0, stack)
        == AnsweredFrom(lib, c, calls, s, k, RunOn(LowerPrefix(lib, c, s, k).value, calls, stack))
    decreases c.ranks[s], 1, k
  {
    hide RunOn; hide AnsweredInst; hide AnsweredFrom; hide LowerInst; hide LowerPrefix; hide Justified; hide Lower;
    hide PrefixEffect; hide InstEffect; hide Tree.Ok; hide Tree.Effect; hide Composed; hide Library.Closed;
    PrefixGrows(lib, c, s, k);
    if k > 0 {
      PartsHaveEffects(lib, c, s, k);
      PrefixAnswered(lib, c, calls, s, k - 1, stack);
      var next := LowerInst(lib, c, s, k - 1);
      var before := stack;
      if k > 1 {
        var prefix := LowerPrefix(lib, c, s, k - 1).value;
        ComposedRuns(prefix, next, calls, stack);
        before := RunOn(prefix, calls, stack);
      }
      InstAnswered(lib, c, calls, s, k - 1, before);
      AnsweredFromNext(lib, c, calls, s, k - 1, before, RunOn(next, calls, before));
    }
  }

  lemma {:induction false} InstAnswered(
    lib: Library, c: Certificate, calls: Interp, s: SentenceIndex, ip: nat, stack: seq<Value>)
    requires Covered(lib, c, s) && ip < |lib.sentences[s]| && |stack| >= LowerInst(lib, c, s, ip).Effect().inputs
    ensures AnsweredInst(lib, c, calls, s, ip, stack) == Some(RunOn(LowerInst(lib, c, s, ip), calls, stack))
    decreases c.ranks[s], 1, ip
  {
    hide RunOn; hide Branched; hide Tree.Effect; hide Tree.Ok; hide Justified; hide Lower; hide AnsweredTarget;
    hide AnsweredFrom; hide LowerSentence; hide LowerPrefix; hide LowerTarget;
    var top := |stack| - 1;
    match lib.sentences[s][ip] {
      case Jump(t) =>
        CalleeCovered(lib, c, s, ip, t);
        TargetAnswered(lib, c, calls, t, stack);
      case Dip(t) =>
        CalleeCovered(lib, c, s, ip, t);
        assert LowerInst(lib, c, s, ip) == LowerDip(LowerTarget(lib, c, t));
        TargetAnswered(lib, c, calls, t, stack[..top]);
        DipRuns(LowerTarget(lib, c, t), calls, stack[..top], stack[top]);
        assert stack == stack[..top] + [stack[top]];
      case Branch(t, f) =>
        CalleeCovered(lib, c, s, ip, t);
        CalleeCovered(lib, c, s, ip, f);
        var arm := CombineBranch(c.arities[t], c.arities[f]).value;
        assert LowerInst(lib, c, s, ip) == LowerBranch(LowerTarget(lib, c, t), LowerTarget(lib, c, f), arm);
        assert stack == stack[..top] + [stack[top]];
        BranchedRuns(LowerTarget(lib, c, t), LowerTarget(lib, c, f), calls, stack[..top], stack[top]);
        TargetAnswered(lib, c, calls, if stack[top].Truthy() then t else f, stack[..top]);
      case _ =>
        LocalAnswered(lib, c, calls, s, ip, stack);
    }
  }

  lemma LocalAnswered(lib: Library, c: Certificate, calls: Interp, s: SentenceIndex, ip: nat, stack: seq<Value>)
    requires Covered(lib, c, s) && ip < |lib.sentences[s]| && |stack| >= LowerInst(lib, c, s, ip).Effect().inputs
    requires var inst := lib.sentences[s][ip]; inst.Local? || inst.Drop? || inst.Copy?
    ensures AnsweredInst(lib, c, calls, s, ip, stack) == Some(RunOn(LowerInst(lib, c, s, ip), calls, stack))
  {
    hide Justified; hide Lower; hide PrefixEffect;
    var top := |stack| - 1;
    if !lib.sentences[s][ip].Local? {
      var x := stack[top];
      assert stack == stack[..top] + [x];
      RunOnSplit(LowerInst(lib, c, s, ip), calls, stack[..top], [x]);
      assert stack[..top] + ([x] + [x]) == stack + [x];
      assert stack[..top] + [] == stack[..top];
    }
  }

  /** `dip { A }` is `A * id(1)`: the hidden value passes on top, untouched. */
  lemma DipRuns(t: Tree, calls: Interp, rest: seq<Value>, hidden: Value)
    requires t.Ok() && |rest| >= t.Effect().inputs
    ensures RunOn(Tree.Par(t, Tree.Id(1)), calls, rest + [hidden]) == RunOn(t, calls, rest) + [hidden]
  {
    var cut := |rest| - t.Effect().inputs;
    var below, args := rest[..cut], rest[cut..];
    assert rest == below + args;
    Associative(below, args, [hidden]);
    RunOnSplit(Tree.Par(t, Tree.Id(1)), calls, below, args + [hidden]);
    ParRuns(t, Tree.Id(1), calls, args, [hidden]);
    IdRuns(1, calls, [hidden]);
    RunOnSplit(t, calls, below, args);
    Associative(below, Run(t, calls, args), [hidden]);
  }

  /** A call to a named sentence is answered by the reading, and by nothing the sentence says. */
  lemma {:induction false} TargetAnswered(
    lib: Library, c: Certificate, calls: Interp, t: SentenceIndex, stack: seq<Value>)
    requires Covered(lib, c, t) && |stack| >= c.arities[t].inputs
    ensures AnsweredTarget(lib, c, calls, t, stack) == Some(RunOn(LowerTarget(lib, c, t), calls, stack))
    decreases c.ranks[t], 3
  {
    hide AnsweredFrom; hide LowerSentence; hide Justified; hide Lower;
    if lib.names[t] == INLINE_BLOCK {
      SentenceAnswered(lib, c, calls, t, stack);
    }
  }

  // ---- which calls stay closed ----

  /** The calls a term leaves closed. */
  function CallsOf(t: Tree): set<(SentenceIndex, Arity)> {
    match t
    case Call(target, arity) => {(target, arity)}
    case Compose(a, b) => CallsOf(a) + CallsOf(b)
    case Par(a, b) => CallsOf(a) + CallsOf(b)
    case Branch(a, b) => CallsOf(a) + CallsOf(b)
    case _ => {}
  }

  /** What the first `k` instructions call by name, here or in the `<inline>` blocks they mention. */
  ghost function CalledBy(lib: Library, c: Certificate, s: SentenceIndex, k: nat): set<(SentenceIndex, Arity)>
    requires Covered(lib, c, s) && k <= |lib.sentences[s]|
    decreases c.ranks[s], 0, k
  {
    if k == 0 then {}
    else
      InstHasEffect(lib, c, s, k - 1);
      CalledBy(lib, c, s, k - 1) + match lib.sentences[s][k - 1]
        case Jump(t) => CalledAs(lib, c, t)
        case Dip(t) => CalledAs(lib, c, t)
        case Branch(t, f) => CalledAs(lib, c, t) + CalledAs(lib, c, f)
        case _ => {}
  }

  ghost function CalledAs(lib: Library, c: Certificate, t: SentenceIndex): set<(SentenceIndex, Arity)>
    requires Covered(lib, c, t)
    decreases c.ranks[t], 1
  {
    if lib.names[t] != INLINE_BLOCK then {(t, c.arities[t])} else CalledBy(lib, c, t, |lib.sentences[t]|)
  }

  /** The calls of the term are the calls by name that the sentence and its blocks make: nothing else stays closed. */
  lemma {:induction false} SentenceCalls(lib: Library, c: Certificate, s: SentenceIndex)
    requires Covered(lib, c, s)
    ensures CallsOf(LowerSentence(lib, c, s)) == CalledBy(lib, c, s, |lib.sentences[s]|)
    decreases c.ranks[s], 2
  {
    PrefixCalls(lib, c, s, |lib.sentences[s]|);
  }

  lemma {:induction false} PrefixCalls(lib: Library, c: Certificate, s: SentenceIndex, k: nat)
    requires Covered(lib, c, s) && k <= |lib.sentences[s]|
    ensures k > 0 ==> CallsOf(LowerPrefix(lib, c, s, k).value) == CalledBy(lib, c, s, k)
    decreases c.ranks[s], 1, k
  {
    hide LowerInst; hide LowerPrefix; hide Composed; hide LowerTarget; hide Justified; hide Lower; hide Branched;
    hide Tree.Ok; hide Tree.Effect; hide PrefixEffect; hide InstEffect; hide Library.Closed; hide CallsOf;
    hide CombineBranch;
    if k > 0 {
      PrefixGrows(lib, c, s, k);
      PrefixCalls(lib, c, s, k - 1);
      InstCalls(lib, c, s, k - 1);
      if k > 1 {
        ComposedCalls(LowerPrefix(lib, c, s, k - 1).value, LowerInst(lib, c, s, k - 1));
      }
    }
  }

  lemma {:induction false} InstCalls(lib: Library, c: Certificate, s: SentenceIndex, ip: nat)
    requires Covered(lib, c, s) && ip < |lib.sentences[s]|
    ensures CalledBy(lib, c, s, ip + 1) == CalledBy(lib, c, s, ip) + CallsOf(LowerInst(lib, c, s, ip))
    decreases c.ranks[s], 1, ip
  {
    hide LowerTarget; hide CalledAs; hide Branched; hide Justified; hide Lower; hide Tree.Ok; hide Tree.Effect;
    InstHasEffect(lib, c, s, ip);
    match lib.sentences[s][ip] {
      case Jump(t) => TargetCalls(lib, c, t);
      case Dip(t) => TargetCalls(lib, c, t);
      case Branch(t, f) =>
        TargetCalls(lib, c, t);
        TargetCalls(lib, c, f);
        BranchedCalls(LowerTarget(lib, c, t), LowerTarget(lib, c, f));
      case _ =>
    }
  }

  lemma {:induction false} TargetCalls(lib: Library, c: Certificate, t: SentenceIndex)
    requires Covered(lib, c, t)
    ensures CallsOf(LowerTarget(lib, c, t)) == CalledAs(lib, c, t)
    decreases c.ranks[t], 3
  {
    hide LowerSentence; hide CalledBy; hide Justified; hide Lower;
    if lib.names[t] == INLINE_BLOCK {
      SentenceCalls(lib, c, t);
    }
  }

  lemma WidenedCalls(t: Tree, n: nat)
    ensures CallsOf(Widened(t, n)) == CallsOf(t)
  {
  }

  lemma PairCalls(a: Tree, b: Tree)
    ensures CallsOf(Tree.Compose(a, b)) == CallsOf(a) + CallsOf(b)
    ensures CallsOf(Tree.Branch(a, b)) == CallsOf(a) + CallsOf(b)
  {
  }

  lemma ComposedCalls(l: Tree, r: Tree)
    ensures CallsOf(Composed(l, r)) == CallsOf(l) + CallsOf(r)
  {
    hide Widened; hide Tree.Effect; hide CallsOf;
    var (have, want) := (l.Effect().outputs, r.Effect().inputs);
    if have < want {
      WidenedCalls(l, want - have);
      PairCalls(Widened(l, want - have), r);
    } else {
      WidenedCalls(r, have - want);
      PairCalls(l, Widened(r, have - want));
    }
  }

  lemma BranchedCalls(t: Tree, f: Tree)
    ensures Branched(t, f).Ok? ==> CallsOf(Branched(t, f).value) == CallsOf(t) + CallsOf(f)
  {
    hide Widened; hide Tree.Effect; hide CallsOf;
    var (m, n) := (t.Effect().inputs, f.Effect().inputs);
    if m < n {
      WidenedCalls(t, n - m);
      PairCalls(Widened(t, n - m), f);
    } else {
      WidenedCalls(f, m - n);
      PairCalls(t, Widened(f, m - n));
    }
  }

  /** A call that is not to a block, at the arity its sentence has. */
  ghost predicate ByName(lib: Library, c: Certificate, call: (SentenceIndex, Arity)) {
    Covered(lib, c, call.0) && lib.names[call.0] != INLINE_BLOCK && call.1 == c.arities[call.0]
  }

  lemma {:induction false} CalledByName(
    lib: Library, c: Certificate, s: SentenceIndex, k: nat, call: (SentenceIndex, Arity))
    requires Covered(lib, c, s) && k <= |lib.sentences[s]| && call in CalledBy(lib, c, s, k)
    ensures ByName(lib, c, call)
    decreases c.ranks[s], 0, k
  {
    hide Justified; hide Lower; hide CalledAs;
    InstHasEffect(lib, c, s, k - 1);
    if call in CalledBy(lib, c, s, k - 1) {
      CalledByName(lib, c, s, k - 1, call);
    } else {
      match lib.sentences[s][k - 1]
      case Jump(t) => CalledAsName(lib, c, t, call);
      case Dip(t) => CalledAsName(lib, c, t, call);
      case Branch(t, f) => CalledAsName(lib, c, if call in CalledAs(lib, c, t) then t else f, call);
    }
  }

  lemma {:induction false} CalledAsName(lib: Library, c: Certificate, t: SentenceIndex, call: (SentenceIndex, Arity))
    requires Covered(lib, c, t) && call in CalledAs(lib, c, t)
    ensures ByName(lib, c, call)
    decreases c.ranks[t], 1
  {
    if lib.names[t] == INLINE_BLOCK {
      CalledByName(lib, c, t, |lib.sentences[t]|, call);
    }
  }

  /** No call in a lowered term names an `<inline>` block, and each carries the arity its sentence has. */
  lemma NamedStayClosed(lib: Library, c: Certificate, s: SentenceIndex)
    requires Covered(lib, c, s)
    ensures forall call | call in CallsOf(LowerSentence(lib, c, s)) :: ByName(lib, c, call)
  {
    hide LowerSentence; hide CalledBy; hide ByName;
    SentenceCalls(lib, c, s);
    forall call | call in CallsOf(LowerSentence(lib, c, s)) ensures ByName(lib, c, call) {
      CalledByName(lib, c, s, |lib.sentences[s]|, call);
    }
  }

  // ---- read as the library has them, the term is the program ----

  /** Calls read as the library has them. */
  ghost function LibraryCalls(lib: Library, c: Certificate): Interp
    requires Certifies(lib, c)
  {
    imap key: (SentenceIndex, Arity, seq<Value>)
      | key.0 in c.arities && RunFrom(lib, c, key.0, 0, key.2).Some?
      :: RunFrom(lib, c, key.0, 0, key.2).value
  }

  /** Running the lowered term is what the sentence does, and underflow is impossible. */
  lemma {:induction false} SentenceFaithful(lib: Library, c: Certificate, s: SentenceIndex, stack: seq<Value>)
    requires Covered(lib, c, s) && |stack| >= c.arities[s].inputs
    ensures RunFrom(lib, c, s, 0, stack) == Some(RunOn(LowerSentence(lib, c, s), LibraryCalls(lib, c), stack))
    decreases c.ranks[s], 2, |lib.sentences[s]| + 1
  {
    SentenceAnswered(lib, c, LibraryCalls(lib, c), s, stack);
    RestFaithful(lib, c, s, 0, stack);
  }

  /** What the library's own reading of the calls answers is what entering them comes to. */
  lemma {:induction false} RestFaithful(lib: Library, c: Certificate, s: SentenceIndex, ip: nat, stack: seq<Value>)
    requires Covered(lib, c, s) && ip <= |lib.sentences[s]|
    requires AnsweredFrom(lib, c, LibraryCalls(lib, c), s, ip, stack).Some?
    ensures RunFrom(lib, c, s, ip, stack) == AnsweredFrom(lib, c, LibraryCalls(lib, c), s, ip, stack)
    decreases c.ranks[s], 2, |lib.sentences[s]| - ip
  {
    hide RunInst; hide AnsweredInst; hide LibraryCalls; hide Justified; hide Lower; hide Library.Closed;
    if ip < |lib.sentences[s]| {
      InstFaithful(lib, c, s, ip, stack);
      RestFaithful(lib, c, s, ip + 1, AnsweredInst(lib, c, LibraryCalls(lib, c), s, ip, stack).value);
    }
  }

  lemma {:induction false} InstFaithful(lib: Library, c: Certificate, s: SentenceIndex, ip: nat, stack: seq<Value>)
    requires Covered(lib, c, s) && ip < |lib.sentences[s]|
    requires AnsweredInst(lib, c, LibraryCalls(lib, c), s, ip, stack).Some?
    ensures RunInst(lib, c, s, ip, stack) == AnsweredInst(lib, c, LibraryCalls(lib, c), s, ip, stack)
    decreases c.ranks[s], 1
  {
    hide LibraryCalls; hide Justified; hide Lower; hide AnsweredTarget; hide RunFrom; hide AnsweredFrom;
    var top := |stack| - 1;
    match lib.sentences[s][ip] {
      case Jump(t) =>
        CalleeCovered(lib, c, s, ip, t);
        TargetFaithful(lib, c, t, stack);
      case Dip(t) =>
        CalleeCovered(lib, c, s, ip, t);
        TargetFaithful(lib, c, t, stack[..top]);
      case Branch(t, f) =>
        CalleeCovered(lib, c, s, ip, t);
        CalleeCovered(lib, c, s, ip, f);
        TargetFaithful(lib, c, if stack[top].Truthy() then t else f, stack[..top]);
      case _ =>
    }
  }

  /** A closed call and a spliced block mean the sentence that is called. */
  lemma {:induction false} TargetFaithful(lib: Library, c: Certificate, t: SentenceIndex, stack: seq<Value>)
    requires Covered(lib, c, t) && AnsweredTarget(lib, c, LibraryCalls(lib, c), t, stack).Some?
    ensures RunFrom(lib, c, t, 0, stack) == AnsweredTarget(lib, c, LibraryCalls(lib, c), t, stack)
    decreases c.ranks[t], 4
  {
    hide RunFrom; hide AnsweredFrom; hide LowerSentence; hide Justified; hide Lower; hide LibraryCalls;
    if lib.names[t] == INLINE_BLOCK {
      RestFaithful(lib, c, t, 0, stack);
    } else {
      var cut := |stack| - c.arities[t].inputs;
      CallMeans(lib, c, t, stack[cut..]);
      SentenceFaithful(lib, c, t, stack);
    }
  }

  /** A call left opaque, read as the library has it, answers what the sentence it names answers. */
  lemma {:induction false} CallMeans(lib: Library, c: Certificate, t: SentenceIndex, args: seq<Value>)
    requires Covered(lib, c, t) && |args| == c.arities[t].inputs
    ensures Run(Tree.Call(t, c.arities[t]), LibraryCalls(lib, c), args)
      == Run(LowerSentence(lib, c, t), LibraryCalls(lib, c), args)
    decreases c.ranks[t], 3
  {
    hide RunOn; hide RunFrom; hide LowerSentence; hide Justified; hide Lower; hide Library.Closed;
    SentenceFaithful(lib, c, t, args);
    RunOnSplit(LowerSentence(lib, c, t), LibraryCalls(lib, c), [], args);
    assert [] + args == args;
    assert (t, c.arities[t], args) in LibraryCalls(lib, c);
  }

  // ---- the machine, on a library that was accepted ----

  /**
   * An accepted sentence never underflows and always halts, within the size of its call expansion. It
   * replaces its inputs with what its term leaves for them, and does not touch anything below.
   */
  lemma SentenceRuns(lib: Library, c: Certificate, s: SentenceIndex, below: seq<Value>, args: seq<Value>)
    requires Covered(lib, c, s) && |args| == c.arities[s].inputs
    ensures exists n: nat | n <= Turns(lib, c, s, 0) + 1 ::
      RunFor(lib, State(below + args, [], s, 0), n)
        == Finished(below + Run(LowerSentence(lib, c, s), LibraryCalls(lib, c), args))
    ensures |Run(LowerSentence(lib, c, s), LibraryCalls(lib, c), args)| == c.arities[s].outputs
  {
    var stack := below + args;
    SentenceFaithful(lib, c, s, stack);
    RunOnSplit(LowerSentence(lib, c, s), LibraryCalls(lib, c), below, args);
    var n := MachineRuns(lib, c, s, 0, stack, []);
    RunForNext(lib, State(stack, [], s, 0), State(RunFrom(lib, c, s, 0, stack).value, [], s, |lib.sentences[s]|), n);
  }
}
