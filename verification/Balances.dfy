/** The height a body leaves the stack at, as the words say it and as the certificate says it. */
module Balances {
  import opened Values
  import opened Prims
  import opened Terms
  import opened Libraries
  import opened Lowering
  import opened Surface
  import opened Emitting
  import opened Expansions

  /** The arm of a `?` that leaves: the error rebuilt, then `k` values dropped from under it. */
  function FailCode(err: Value, drop: SentenceIndex, k: nat): Libraries.Sentence {
    [Local(Push(err)), Local(Prim.Tuple(2))] + seq(k, _ => Instruction.Dip(drop))
  }

  /** How many drops the arm at `f` was given; a shared block holds the `drop`. */
  ghost predicate Salvages(lib: Library, err: Value, f: SentenceIndex, drop: SentenceIndex, k: nat) {
    && f < |lib.sentences| && lib.sentences[f] == FailCode(err, drop, k)
    && (k > 0 ==> drop < |lib.sentences| && lib.sentences[drop] == [Instruction.Drop])
  }

  ghost predicate Salvaging(lib: Library, err: Value, f: SentenceIndex) {
    exists drop, k :: Salvages(lib, err, f, drop, k)
  }

  /** A whole program in place: its blocks, its named sentences, its early returns, and a certificate. */
  ghost predicate Installed(lib: Library, c: Certificate, p: Program, e: Emitted) {
    && Holds(lib, c, e.code)
    && (forall s | 0 <= s < |lib.sentences| :: s in c.arities)
    && |p.bodies| == |p.nets| == e.named
    && (forall s | 0 <= s < |p.bodies| :: Named(lib, c, p, e, s))
    && (forall x | x in e.exits :: Salvaging(lib, p.err, x.1))
  }

  ghost predicate Named(lib: Library, c: Certificate, p: Program, e: Emitted, s: SentenceIndex)
    requires s < |p.bodies| == |p.nets|
  {
    && s in e.code && s in c.arities && Renders(e, p.ok, p.bodies[s], e.code[s])
    && p.nets[s] == c.arities[s].Net()
  }

  /** How much taller the first `ip` instructions leave the stack. */
  ghost function NetAt(lib: Library, c: Certificate, s: SentenceIndex, ip: nat): int
    requires Covered(lib, c, s) && ip <= |lib.sentences[s]|
  {
    PartsHaveEffects(lib, c, s, ip);
    PrefixEffect(lib.sentences[s], ip, c.arities).value.Net()
  }

  ghost function NetHere(lib: Library, c: Certificate, s: SentenceIndex, ip: nat): int
    requires Covered(lib, c, s) && ip < |lib.sentences[s]|
  {
    InstHasEffect(lib, c, s, ip);
    InstEffect(lib.sentences[s][ip], c.arities).value.Net()
  }

  lemma NetGrows(lib: Library, c: Certificate, s: SentenceIndex, ip: nat)
    requires Covered(lib, c, s) && ip <= |lib.sentences[s]|
    ensures ip == 0 ==> NetAt(lib, c, s, ip) == 0
    ensures ip < |lib.sentences[s]| ==> NetAt(lib, c, s, ip + 1) == NetAt(lib, c, s, ip) + NetHere(lib, c, s, ip)
    ensures ip == |lib.sentences[s]| ==> NetAt(lib, c, s, ip) == c.arities[s].Net()
  {
    hide InstEffect;
    PartsHaveEffects(lib, c, s, ip);
    CalleesCovered(lib, c, s);
    if ip < |lib.sentences[s]| {
      PartsHaveEffects(lib, c, s, ip + 1);
      InstHasEffect(lib, c, s, ip);
    }
  }

  /** What calling, framing and branching change, in terms of what is called. */
  lemma NetOfInst(lib: Library, c: Certificate, s: SentenceIndex, ip: nat)
    requires Covered(lib, c, s) && ip < |lib.sentences[s]|
    ensures match lib.sentences[s][ip]
      case Local(prim) => NetHere(lib, c, s, ip) == prim.Effect().Net()
      case Drop => NetHere(lib, c, s, ip) == -1
      case Copy => NetHere(lib, c, s, ip) == 1
      case Jump(t) => Below(lib, c, t, s) && NetHere(lib, c, s, ip) == c.arities[t].Net()
      case Dip(t) => Below(lib, c, t, s) && NetHere(lib, c, s, ip) == c.arities[t].Net()
      case Branch(t, f) =>
        && Below(lib, c, t, s) && Below(lib, c, f, s)
        && c.arities[t].Net() == c.arities[f].Net() && NetHere(lib, c, s, ip) == c.arities[t].Net() - 1
  {
    InstHasEffect(lib, c, s, ip);
  }

  ghost predicate Below(lib: Library, c: Certificate, t: SentenceIndex, s: SentenceIndex)
    requires Covered(lib, c, s)
  {
    Covered(lib, c, t) && t in c.ranks && c.ranks[t] < c.ranks[s]
  }

  function NetOfReach(kind: Reach): int {
    match kind
    case Copying => 1
    case Moving => 0
    case Discarding => -1
  }

  lemma {:induction false} ReachNet(
    lib: Library, c: Certificate, code: Code, s: SentenceIndex, ip: nat, kind: Reach, d: nat)
    requires Holds(lib, c, code) && s in c.arities && ip + ReachLength(kind, d) <= |lib.sentences[s]|
    requires ReachCode(code, kind, d, lib.sentences[s][ip..ip + ReachLength(kind, d)])
    ensures NetAt(lib, c, s, ip + ReachLength(kind, d)) == NetAt(lib, c, s, ip) + NetOfReach(kind)
    decreases d, 0
  {
    hide NetAt; hide NetHere; hide Certifies; hide Library.Closed;
    InRange(lib, c, s);
    var n := ReachLength(kind, d);
    var insts := lib.sentences[s][ip..ip + n];
    if n > 0 {
      assert insts[0] == lib.sentences[s][ip];
      NetGrows(lib, c, s, ip);
      NetOfInst(lib, c, s, ip);
      if n > 1 {
        assert insts[1] == lib.sentences[s][ip + 1];
        NetGrows(lib, c, s, ip + 1);
        NetOfInst(lib, c, s, ip + 1);
      }
      if insts[0].Dip? {
        BlockReachNet(lib, c, code, insts[0].target, kind, d - 1);
      }
    }
  }

  lemma {:induction false} BlockReachNet(
    lib: Library, c: Certificate, code: Code, t: SentenceIndex, kind: Reach, d: nat)
    requires Holds(lib, c, code) && t in c.arities && t in code && ReachCode(code, kind, d, code[t])
    ensures c.arities[t].Net() == NetOfReach(kind)
    decreases d, 1
  {
    hide NetAt; hide Certifies; hide Library.Closed;
    var n := ReachLength(kind, d);
    assert n == |code[t]| && lib.sentences[t][0..0 + n] == code[t];
    ReachNet(lib, c, code, t, 0, kind, d);
    NetGrows(lib, c, t, 0);
    NetGrows(lib, c, t, n);
  }

  lemma {:induction false} FrameNet(
    lib: Library, c: Certificate, code: Code, s: SentenceIndex, ip: nat, d: nat, target: SentenceIndex)
    requires Holds(lib, c, code) && s in c.arities && ip < |lib.sentences[s]|
    requires Framed(code, d, target, lib.sentences[s][ip])
    ensures Below(lib, c, target, s) && NetHere(lib, c, s, ip) == c.arities[target].Net()
    decreases d
  {
    hide NetAt; hide NetHere; hide Certifies; hide Library.Closed;
    InRange(lib, c, s);
    NetOfInst(lib, c, s, ip);
    if d > 1 {
      var t := lib.sentences[s][ip].target;
      InRange(lib, c, t);
      FrameNet(lib, c, code, t, 0, d - 1, target);
      NetGrows(lib, c, t, 0);
      NetGrows(lib, c, t, 1);
    }
  }

  /** The program's blocks are in place, and its nets are right of every named sentence of a rank below `bound`. */
  ghost predicate Reckoned(lib: Library, c: Certificate, p: Program, e: Emitted, bound: nat) {
    && Holds(lib, c, e.code) && |p.nets| == e.named
    && forall s | 0 <= s < |p.nets| && s in c.arities && s in c.ranks && c.ranks[s] < bound ::
      p.nets[s] == c.arities[s].Net()
  }

  lemma InstalledParts(lib: Library, c: Certificate, p: Program, e: Emitted)
    requires Installed(lib, c, p, e)
    ensures Holds(lib, c, e.code) && |p.nets| == |p.bodies| == e.named
    ensures forall s | 0 <= s < |p.bodies| :: Named(lib, c, p, e, s)
    ensures forall s | 0 <= s < |lib.sentences| :: s in c.arities
    ensures forall bound: nat :: Reckoned(lib, c, p, e, bound)
  {
    forall s | 0 <= s < |p.nets| ensures s in c.arities && p.nets[s] == c.arities[s].Net() {
      assert Named(lib, c, p, e, s);
    }
  }

  function Size(target: Target): nat {
    if target.Inline? then |target.body| + 1 else 0
  }

  lemma {:induction false} TargetNet(
    lib: Library, c: Certificate, p: Program, e: Emitted, bound: nat, target: Target, t: SentenceIndex)
    requires Reckoned(lib, c, p, e, bound) && Covered(lib, c, t) && t in c.ranks && c.ranks[t] < bound
    requires Resolves(e, p.ok, target, t)
    ensures c.arities[t].Net() == NetOfTarget(p.nets, target)
    decreases c.ranks[t], Size(target), 0
  {
    match target
    case Label(s) =>
    case Inline(body) =>
      assert lib.sentences[t][0..] == e.code[t];
      BodyNet(lib, c, p, e, bound, t, 0, body);
      NetGrows(lib, c, t, 0);
  }

  lemma {:induction false} WordNet(
    lib: Library, c: Certificate, p: Program, e: Emitted, bound: nat, s: SentenceIndex, ip: nat, word: Word)
    requires Reckoned(lib, c, p, e, bound) && Covered(lib, c, s) && s in c.ranks && c.ranks[s] <= bound
    requires !word.Try? && ip + Length(word) <= |lib.sentences[s]|
    requires RendersWord(e, p.ok, word, lib.sentences[s][ip..ip + Length(word)])
    ensures NetAt(lib, c, s, ip + Length(word)) == NetAt(lib, c, s, ip) + NetOfWord(p.nets, word)
    decreases c.ranks[s], 0, 1
  {
    hide NetAt; hide NetHere; hide Certifies; hide Library.Closed; hide Reckoned; hide Renders;
    CodeHeld(lib, c, p, e, bound);
    InRange(lib, c, s);
    var insts := lib.sentences[s][ip..ip + Length(word)];
    if word.Drop? {
      ReachNet(lib, c, e.code, s, ip, Discarding, word.depth);
    } else if word.Pick? {
      ReachNet(lib, c, e.code, s, ip, Copying, word.depth);
    } else if word.Roll? {
      ReachNet(lib, c, e.code, s, ip, Moving, word.depth);
    } else {
      assert insts[0] == lib.sentences[s][ip];
      NetGrows(lib, c, s, ip);
      NetOfInst(lib, c, s, ip);
      CallNet(lib, c, p, e, bound, s, ip, word);
      if Length(word) == 2 {
        assert insts[1] == lib.sentences[s][ip + 1];
        NetGrows(lib, c, s, ip + 1);
        NetOfInst(lib, c, s, ip + 1);
      }
    }
  }

  lemma CodeHeld(lib: Library, c: Certificate, p: Program, e: Emitted, bound: nat)
    requires Reckoned(lib, c, p, e, bound)
    ensures Holds(lib, c, e.code) && |p.nets| == e.named
    ensures forall s | 0 <= s < |p.nets| && s in c.arities && s in c.ranks && c.ranks[s] < bound ::
      p.nets[s] == c.arities[s].Net()
  {
  }

  lemma {:induction false} CallNet(
    lib: Library, c: Certificate, p: Program, e: Emitted, bound: nat, s: SentenceIndex, ip: nat, word: Word)
    requires Reckoned(lib, c, p, e, bound) && Covered(lib, c, s) && s in c.ranks && c.ranks[s] <= bound
    requires ip < |lib.sentences[s]|
    requires !word.Try? && Length(word) == 1 ==> RendersWord(e, p.ok, word, [lib.sentences[s][ip]])
    ensures match word
      case Jump(_) => NetHere(lib, c, s, ip) == NetOfWord(p.nets, word)
      case Dip(_, _) => NetHere(lib, c, s, ip) == NetOfWord(p.nets, word)
      case Branch(_, _) => NetHere(lib, c, s, ip) == NetOfWord(p.nets, word)
      case Check(Sentence(_)) => NetHere(lib, c, s, ip) == NetOfWord(p.nets, word)
      case _ => true
    decreases c.ranks[s], 0, 0
  {
    hide NetHere; hide Certifies; hide Library.Closed; hide Reckoned; hide Renders;
    CodeHeld(lib, c, p, e, bound);
    InRange(lib, c, s);
    NetOfInst(lib, c, s, ip);
    var inst := lib.sentences[s][ip];
    match word
    case Jump(target) => TargetNet(lib, c, p, e, bound, target, inst.target);
    case Dip(d, target) =>
      var t :| Framed(e.code, d, t, [inst][0]) && Resolves(e, p.ok, target, t);
      FrameNet(lib, c, e.code, s, ip, d, t);
      TargetNet(lib, c, p, e, bound, target, t);
    case Branch(yes, _) => TargetNet(lib, c, p, e, bound, yes, inst.ifTrue);
    case Check(Sentence(t)) =>
    case _ =>
  }

  /** From any point on, what the certificate says is left to happen is what the words say. */
  lemma {:induction false} BodyNet(
    lib: Library, c: Certificate, p: Program, e: Emitted, bound: nat, s: SentenceIndex, ip: nat, body: Body)
    requires Reckoned(lib, c, p, e, bound) && Covered(lib, c, s) && s in c.ranks && c.ranks[s] <= bound
    requires ip <= |lib.sentences[s]|
    requires Renders(e, p.ok, body, lib.sentences[s][ip..])
    ensures c.arities[s].Net() == NetAt(lib, c, s, ip) + NetOf(p.nets, body)
    decreases c.ranks[s], |body|, 0
  {
    hide NetAt; hide Certifies; hide Library.Closed; hide Reckoned; hide RendersWord;
    InRange(lib, c, s);
    if body == [] {
      NetGrows(lib, c, s, ip);
    } else if body[0].Try? {
      TryNet(lib, c, p, e, bound, s, ip, body);
    } else {
      var n := Length(body[0]);
      assert lib.sentences[s][ip..][..n] == lib.sentences[s][ip..ip + n];
      assert lib.sentences[s][ip..][n..] == lib.sentences[s][ip + n..];
      WordNet(lib, c, p, e, bound, s, ip, body[0]);
      BodyNet(lib, c, p, e, bound, s, ip + n, body[1..]);
    }
  }

  lemma {:induction false} TryNet(
    lib: Library, c: Certificate, p: Program, e: Emitted, bound: nat, s: SentenceIndex, ip: nat, body: Body)
    requires Reckoned(lib, c, p, e, bound) && Covered(lib, c, s) && s in c.ranks && c.ranks[s] <= bound
    requires ip <= |lib.sentences[s]| && body != [] && body[0].Try?
    requires Renders(e, p.ok, body, lib.sentences[s][ip..])
    ensures c.arities[s].Net() == NetAt(lib, c, s, ip) + NetOf(p.nets, body[1..])
    decreases c.ranks[s], 0, 1
  {
    hide NetAt; hide NetHere; hide Certifies; hide Library.Closed; hide Reckoned; hide RendersWord;
    CodeHeld(lib, c, p, e, bound);
    InRange(lib, c, s);
    var insts := lib.sentences[s][ip..];
    TryPrologueNet(lib, c, e, p.ok, s, ip);
    var rest := insts[5].ifTrue;
    assert insts[5] == lib.sentences[s][ip + 5];
    NetGrows(lib, c, s, ip + 5);
    NetOfInst(lib, c, s, ip + 5);
    NetGrows(lib, c, s, ip + 6);
    assert lib.sentences[rest][0..] == e.code[rest];
    BodyNet(lib, c, p, e, bound, rest, 0, body[1..]);
    NetGrows(lib, c, rest, 0);
  }

  /** The instructions of a `?`, where they stand. */
  lemma AskedShape(lib: Library, c: Certificate, e: Emitted, ok: Value, s: SentenceIndex, ip: nat)
    requires Holds(lib, c, e.code) && s in c.arities && ip <= |lib.sentences[s]|
    requires AsksForAResult(e, ok, lib.sentences[s][ip..])
    ensures |lib.sentences[s]| == ip + 6
    ensures lib.sentences[s][ip] == lib.sentences[s][ip + 1] == Instruction.Copy
    ensures lib.sentences[s][ip + 2] == Local(AsTuple(2)) && lib.sentences[s][ip + 3] == Local(Equal)
    ensures lib.sentences[s][ip + 4].Branch? && lib.sentences[s][ip + 5].Branch?
    ensures var t := lib.sentences[s][ip + 4].ifTrue;
      t < |lib.sentences| && lib.sentences[t] == [Local(Untuple(2)), Local(Push(ok)), Local(Equal)]
    ensures var f := lib.sentences[s][ip + 4].ifFalse;
      f < |lib.sentences| && lib.sentences[f] == [Local(Push(Bool(false)))]
    ensures (lib.sentences[s][ip + 5].ifTrue, lib.sentences[s][ip + 5].ifFalse) in e.exits
    ensures var t := lib.sentences[s][ip + 5].ifTrue;
      t in e.code && t < |lib.sentences| && lib.sentences[t] == e.code[t]
  {
    var insts := lib.sentences[s][ip..];
    var asked := insts[..4];
    assert asked[0] == lib.sentences[s][ip] && asked[1] == lib.sentences[s][ip + 1];
    assert asked[2] == lib.sentences[s][ip + 2] && asked[3] == lib.sentences[s][ip + 3];
    assert insts[4] == lib.sentences[s][ip + 4] && insts[5] == lib.sentences[s][ip + 5];
  }

  lemma NetAfter(lib: Library, c: Certificate, s: SentenceIndex, ip: nat)
    requires Covered(lib, c, s) && ip < |lib.sentences[s]|
    ensures match lib.sentences[s][ip]
      case Local(prim) => NetAt(lib, c, s, ip + 1) == NetAt(lib, c, s, ip) + prim.Effect().Net()
      case Copy => NetAt(lib, c, s, ip + 1) == NetAt(lib, c, s, ip) + 1
      case Branch(t, _) =>
        Below(lib, c, t, s) && NetAt(lib, c, s, ip + 1) == NetAt(lib, c, s, ip) + c.arities[t].Net() - 1
      case _ => true
  {
    hide NetAt; hide NetHere;
    NetGrows(lib, c, s, ip);
    NetOfInst(lib, c, s, ip);
  }

  /** Asking for a result leaves one more value: the payload is where the result was, and the answer is on it. */
  lemma TryPrologueNet(lib: Library, c: Certificate, e: Emitted, ok: Value, s: SentenceIndex, ip: nat)
    requires Holds(lib, c, e.code) && s in c.arities && ip <= |lib.sentences[s]|
    requires AsksForAResult(e, ok, lib.sentences[s][ip..])
    ensures NetAt(lib, c, s, ip + 5) == NetAt(lib, c, s, ip) + 1
  {
    hide NetAt; hide Certifies; hide Library.Closed;
    AskedShape(lib, c, e, ok, s, ip);
    InRange(lib, c, s);
    hide AsksForAResult;
    NetAfter(lib, c, s, ip);
    NetAfter(lib, c, s, ip + 1);
    NetAfter(lib, c, s, ip + 2);
    NetAfter(lib, c, s, ip + 3);
    NetAfter(lib, c, s, ip + 4);
    AnswerNet(lib, c, ok, lib.sentences[s][ip + 4].ifTrue);
  }

  lemma AnswerNet(lib: Library, c: Certificate, ok: Value, t: SentenceIndex)
    requires Covered(lib, c, t) && lib.sentences[t] == [Local(Untuple(2)), Local(Push(ok)), Local(Equal)]
    ensures c.arities[t].Net() == 1
  {
    hide NetAt; hide Certifies; hide Library.Closed;
    InRange(lib, c, t);
    NetAfter(lib, c, t, 0);
    NetAfter(lib, c, t, 1);
    NetAfter(lib, c, t, 2);
    NetGrows(lib, c, t, 0);
    NetGrows(lib, c, t, 3);
  }

  /** The drops an early return was given are its whole net change. */
  lemma SalvageNet(lib: Library, c: Certificate, err: Value, f: SentenceIndex, drop: SentenceIndex, k: nat)
    requires Salvages(lib, err, f, drop, k) && Covered(lib, c, f)
    ensures c.arities[f].Net() + k == 0
  {
    hide NetAt; hide Certifies; hide Library.Closed;
    NetAfter(lib, c, f, 0);
    NetAfter(lib, c, f, 1);
    NetGrows(lib, c, f, 0);
    NetGrows(lib, c, f, 2 + k);
    DropsNet(lib, c, err, f, drop, k, k);
  }

  lemma {:induction false} DropsNet(
    lib: Library, c: Certificate, err: Value, f: SentenceIndex, drop: SentenceIndex, k: nat, j: nat)
    requires Salvages(lib, err, f, drop, k) && Covered(lib, c, f) && j <= k
    ensures NetAt(lib, c, f, 2 + j) == NetAt(lib, c, f, 2) - j
    decreases j
  {
    if j > 0 {
      hide NetAt; hide NetHere; hide Certifies; hide Library.Closed;
      DropsNet(lib, c, err, f, drop, k, j - 1);
      assert lib.sentences[f][2 + (j - 1)] == Instruction.Dip(drop);
      NetGrows(lib, c, f, 2 + (j - 1));
      NetOfInst(lib, c, f, 2 + (j - 1));
      NetGrows(lib, c, drop, 0);
      NetOfInst(lib, c, drop, 0);
      NetGrows(lib, c, drop, 1);
    }
  }
}
