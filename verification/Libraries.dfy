/** Compiled programs, and the certificate that says one of them has a stack effect throughout. */
module Libraries {
  import opened Wrappers
  import opened Prims
  import opened Terms

  /** A local instruction is a prim; the five others are what the term algebra says structurally. */
  datatype Instruction =
    | Local(prim: Prim)
    | Drop
    | Copy
    | Jump(target: SentenceIndex)
    | Dip(target: SentenceIndex)
    | Branch(ifTrue: SentenceIndex, ifFalse: SentenceIndex)
  {
    function Callees(): set<SentenceIndex> {
      match this
      case Jump(t) => {t}
      case Dip(t) => {t}
      case Branch(t, f) => {t, f}
      case _ => {}
    }
  }

  type Sentence = seq<Instruction>

  const INLINE_BLOCK := "<inline>"

  datatype Library = Library(sentences: seq<Sentence>, names: seq<string>, annotations: seq<seq<Arity>>) {
    /** Every index the program mentions is an index it has. */
    predicate Closed() {
      && |names| == |sentences| == |annotations|
      && forall s, ip | 0 <= s < |sentences| && 0 <= ip < |sentences[s]| ::
        forall t | t in sentences[s][ip].Callees() :: t < |sentences|
    }
  }

  // ---- stack effects ----

  /** What a branch takes and leaves: the deeper of the two demands, and the net the arms share. */
  function CombineBranch(t: Arity, f: Arity): Option<Arity> {
    if t.Net() != f.Net() then None
    else
      var inputs := if t.inputs < f.inputs then f.inputs else t.inputs;
      Some(Arity(inputs, inputs + t.Net()))
  }

  /** The stack effect of an instruction, reading the effects of its callees off a certificate. */
  function InstEffect(inst: Instruction, arities: map<SentenceIndex, Arity>): Option<Arity>
    requires inst.Callees() <= arities.Keys
  {
    match inst
    case Local(prim) => Some(prim.Effect())
    case Drop => Some(Arity(1, 0))
    case Copy => Some(Arity(1, 2))
    case Jump(t) => Some(arities[t])
    case Dip(t) => Some(Arity(arities[t].inputs + 1, arities[t].outputs + 1))
    case Branch(t, f) =>
      match CombineBranch(arities[t], arities[f])
      case Some(arm) => Some(Arity(arm.inputs + 1, arm.outputs))
      case None => None
  }

  /** A requirement found late grows the input count retroactively. */
  function Extend(soFar: Arity, next: Arity): Arity {
    if soFar.outputs < next.inputs then
      Arity(soFar.inputs + next.inputs - soFar.outputs, next.outputs)
    else
      Arity(soFar.inputs, soFar.outputs - next.inputs + next.outputs)
  }

  /** The effect of the first `k` instructions. */
  function PrefixEffect(insts: Sentence, k: nat, arities: map<SentenceIndex, Arity>): Option<Arity>
    requires k <= |insts| && forall ip | 0 <= ip < k :: insts[ip].Callees() <= arities.Keys
  {
    if k == 0 then Some(Arity(0, 0))
    else
      match (PrefixEffect(insts, k - 1, arities), InstEffect(insts[k - 1], arities))
      case (Some(a), Some(n)) => Some(Extend(a, n))
      case _ => None
  }

  /** Stack effects for some of the sentences, and an order in which calls only go down. */
  datatype Certificate = Certificate(arities: map<SentenceIndex, Arity>, ranks: map<SentenceIndex, nat>)

  ghost predicate Certifies(lib: Library, c: Certificate) {
    && c.arities.Keys == c.ranks.Keys
    && forall s | s in c.arities :: s < |lib.sentences| && Justified(lib, c, s)
  }

  /** The sentence's effect follows from its callees', and each of them is strictly lower. */
  ghost predicate Justified(lib: Library, c: Certificate, s: SentenceIndex)
    requires s < |lib.sentences| && s in c.arities && c.arities.Keys == c.ranks.Keys
  {
    && (forall ip | 0 <= ip < |lib.sentences[s]| :: Lower(c, s, lib.sentences[s][ip]))
    && PrefixEffect(lib.sentences[s], |lib.sentences[s]|, c.arities) == Some(c.arities[s])
  }

  ghost predicate Lower(c: Certificate, s: SentenceIndex, inst: Instruction)
    requires s in c.ranks
    ensures Lower(c, s, inst) ==> inst.Callees() <= c.ranks.Keys
  {
    forall t | t in inst.Callees() :: t in c.ranks && c.ranks[t] < c.ranks[s]
  }

  /** No sentence reaches itself: calls only go down this ranking. */
  ghost predicate Acyclic(lib: Library, ranks: map<SentenceIndex, nat>) {
    forall s | 0 <= s < |lib.sentences| :: s in ranks && forall ip | 0 <= ip < |lib.sentences[s]| ::
      forall t | t in lib.sentences[s][ip].Callees() :: t in ranks && ranks[t] < ranks[s]
  }

  /** Stack effects are a fact about the library: no two certificates disagree on one. */
  lemma {:induction false} CertificatesAgree(lib: Library, c: Certificate, d: Certificate, s: SentenceIndex)
    requires Certifies(lib, c) && Certifies(lib, d) && s in c.arities && s in d.arities
    ensures c.arities[s] == d.arities[s]
    decreases c.ranks[s]
  {
    assert Justified(lib, c, s) && Justified(lib, d, s);
    var insts := lib.sentences[s];
    forall ip, t | 0 <= ip < |insts| && t in insts[ip].Callees() ensures c.arities[t] == d.arities[t] {
      assert Lower(c, s, insts[ip]) && Lower(d, s, insts[ip]);
      CertificatesAgree(lib, c, d, t);
    }
    PrefixesAgree(insts, |insts|, c.arities, d.arities);
  }

  lemma {:induction false} PrefixesAgree(
    insts: Sentence, k: nat, a: map<SentenceIndex, Arity>, b: map<SentenceIndex, Arity>)
    requires k <= |insts|
    requires forall ip | 0 <= ip < k :: insts[ip].Callees() <= a.Keys && insts[ip].Callees() <= b.Keys
    requires forall ip, t | 0 <= ip < k && t in insts[ip].Callees() :: a[t] == b[t]
    ensures PrefixEffect(insts, k, a) == PrefixEffect(insts, k, b)
  {
    if k > 0 {
      PrefixesAgree(insts, k - 1, a, b);
      var inst := insts[k - 1];
      assert forall t | t in inst.Callees() :: a[t] == b[t];
      match inst
      case Jump(t) => assert t in inst.Callees();
      case Dip(t) => assert t in inst.Callees();
      case Branch(t, f) => assert t in inst.Callees() && f in inst.Callees();
      case _ =>
    }
  }

  /** Two certificates side by side: a bigger arity table changes no prefix it already covered. */
  lemma Widening(insts: Sentence, a: map<SentenceIndex, Arity>, b: map<SentenceIndex, Arity>)
    requires forall ip | 0 <= ip < |insts| :: insts[ip].Callees() <= a.Keys
    requires a.Keys <= b.Keys && forall t | t in a :: a[t] == b[t]
    ensures PrefixEffect(insts, |insts|, a) == PrefixEffect(insts, |insts|, b)
  {
    PrefixesAgree(insts, |insts|, a, b);
  }

  /** A sentence whose callees are all covered can be covered too. */
  lemma Extended(lib: Library, c: Certificate, s: SentenceIndex, arity: Arity, rank: nat)
    requires Certifies(lib, c) && s < |lib.sentences| && s !in c.arities
    requires forall t | t in c.ranks :: c.ranks[t] < rank
    requires forall ip | 0 <= ip < |lib.sentences[s]| :: lib.sentences[s][ip].Callees() <= c.arities.Keys
    requires PrefixEffect(lib.sentences[s], |lib.sentences[s]|, c.arities) == Some(arity)
    ensures Certifies(lib, Certificate(c.arities[s := arity], c.ranks[s := rank]))
  {
    var d := Certificate(c.arities[s := arity], c.ranks[s := rank]);
    Widening(lib.sentences[s], c.arities, d.arities);
    forall ip | 0 <= ip < |lib.sentences[s]| ensures Lower(d, s, lib.sentences[s][ip]) {
    }
    forall t | t in c.arities ensures Justified(lib, d, t) {
      assert Justified(lib, c, t);
      forall ip | 0 <= ip < |lib.sentences[t]| ensures Lower(d, t, lib.sentences[t][ip]) {
        assert Lower(c, t, lib.sentences[t][ip]);
      }
      Widening(lib.sentences[t], c.arities, d.arities);
    }
  }

  /** What a sentence declares may ask for more than it touches, but never for a different net change. */
  predicate Meets(inferred: Arity, declared: Arity) {
    inferred.inputs <= declared.inputs && inferred.Net() == declared.Net()
  }

  /** Every sentence has an effect, and it is what the sentence's annotations say. */
  ghost predicate Accepts(lib: Library, c: Certificate)
    requires lib.Closed()
  {
    && Certifies(lib, c)
    && (forall s | 0 <= s < |lib.sentences| :: s in c.arities)
    && (forall s | 0 <= s < |lib.sentences| :: Declared(lib, s, c.arities[s]))
  }

  predicate Declared(lib: Library, s: SentenceIndex, inferred: Arity)
    requires lib.Closed() && s < |lib.sentences|
  {
    forall k | 0 <= k < |lib.annotations[s]| :: Meets(inferred, lib.annotations[s][k])
  }

  ghost predicate CallPath(lib: Library, path: seq<SentenceIndex>) {
    && (forall k | 0 <= k < |path| :: path[k] < |lib.sentences|)
    && (forall k | 0 <= k < |path| - 1 :: Calls(lib, path[k], path[k + 1]))
  }

  ghost predicate Calls(lib: Library, s: SentenceIndex, t: SentenceIndex)
    requires s < |lib.sentences|
  {
    exists ip :: 0 <= ip < |lib.sentences[s]| && t in lib.sentences[s][ip].Callees()
  }

  lemma CalleeIsLower(lib: Library, c: Certificate, s: SentenceIndex, t: SentenceIndex)
    requires Certifies(lib, c) && s in c.ranks && s < |lib.sentences| && Calls(lib, s, t)
    ensures t in c.ranks && c.ranks[t] < c.ranks[s]
  {
    hide PrefixEffect;
    assert Justified(lib, c, s);
    var ip :| 0 <= ip < |lib.sentences[s]| && t in lib.sentences[s][ip].Callees();
    assert Lower(c, s, lib.sentences[s][ip]);
  }

  /** Calls only go down, so no certificate covers a call cycle. */
  lemma {:induction false} PathsGoDown(lib: Library, c: Certificate, path: seq<SentenceIndex>)
    requires Certifies(lib, c) && CallPath(lib, path) && |path| > 1 && path[0] in c.ranks
    ensures path[|path| - 1] in c.ranks && c.ranks[path[|path| - 1]] < c.ranks[path[0]]
    decreases |path|
  {
    hide Certifies; hide Calls;
    assert Calls(lib, path[0], path[0 + 1]);
    CalleeIsLower(lib, c, path[0], path[1]);
    if |path| > 2 {
      var rest := path[1..];
      forall k | 0 <= k < |rest| - 1 ensures Calls(lib, rest[k], rest[k + 1]) {
        assert Calls(lib, path[k + 1], path[k + 1 + 1]);
      }
      PathsGoDown(lib, c, rest);
    }
  }
}
