/** Words that settle are accepted: what they compile to can be covered, each early return finished at its turn. */
module Accepting {
  import opened Values
  import opened Prims
  import opened Terms
  import opened Libraries
  import opened Lowering
  import opened Surface
  import opened Emitting
  import opened Expansions
  import opened Balances
  import opened Drafts
  import opened EarlyReturns
  import opened Settling

  // ---- a library with the program in place ----

  ghost predicate Placed(lib: Library, p: Program, e: Emitted) {
    && lib.Closed() && |p.bodies| == |p.nets| == e.named
    && (forall t | t in e.code :: t < |lib.sentences| && lib.sentences[t] == e.code[t])
    && forall s | 0 <= s < |p.bodies| ::
      s in e.code && Renders(e, p.ok, p.bodies[s], e.code[s]) && NetOf(p.nets, p.bodies[s]) == p.nets[s]
  }

  /** Whatever certificate covers a named sentence, its net change is the one the words have. */
  lemma {:induction false} NamedNet(lib: Library, c: Certificate, p: Program, e: Emitted, s: SentenceIndex)
    requires Placed(lib, p, e) && Certifies(lib, c) && s < |p.nets| && s in c.arities && s in c.ranks
    ensures c.arities[s].Net() == p.nets[s]
    decreases c.ranks[s]
  {
    forall q | 0 <= q < |p.nets| && q in c.arities && q in c.ranks && c.ranks[q] < c.ranks[s]
      ensures p.nets[q] == c.arities[q].Net()
    {
      NamedNet(lib, c, p, e, q);
    }
    assert Reckoned(lib, c, p, e, c.ranks[s]);
    hide NetAt; hide Reckoned; hide Certifies; hide Renders;
    BlockNet(lib, c, p, e, c.ranks[s], s, p.bodies[s]);
  }

  lemma BlockNet(
    lib: Library, c: Certificate, p: Program, e: Emitted, bound: nat, t: SentenceIndex, body: Body)
    requires Placed(lib, p, e) && Reckoned(lib, c, p, e, bound) && Covered(lib, c, t)
    requires t in c.ranks && c.ranks[t] <= bound && t in e.code && Renders(e, p.ok, body, e.code[t])
    ensures c.arities[t].Net() == NetOf(p.nets, body)
  {
    hide NetAt; hide Reckoned; hide Certifies; hide Renders;
    assert lib.sentences[t][0..] == e.code[t];
    BodyNet(lib, c, p, e, bound, t, 0, body);
    NetGrows(lib, c, t, 0);
  }

  /** The same of whatever a target was resolved to. */
  lemma ResolvedNet(
    lib: Library, c: Certificate, p: Program, e: Emitted, target: Target, t: SentenceIndex)
    requires Placed(lib, p, e) && Covered(lib, c, t) && Resolves(e, p.ok, target, t)
    ensures c.arities[t].Net() == NetOfTarget(p.nets, target)
  {
    assert t in c.ranks;
    forall q | 0 <= q < |p.nets| && q in c.arities && q in c.ranks ensures p.nets[q] == c.arities[q].Net() {
      NamedNet(lib, c, p, e, q);
    }
    TargetNet(lib, c, p, e, c.ranks[t] + 1, target, t);
  }

  // ---- covering one block more ----

  ghost predicate Wider(c: Certificate, d: Certificate) {
    c.arities.Keys <= d.arities.Keys
  }

  /** The certificate covers all that these instructions call, and arms of one branch change the height alike. */
  ghost predicate Ready(c: Certificate, insts: Libraries.Sentence) {
    forall ip | 0 <= ip < |insts| :: ReadyInst(c, insts[ip])
  }

  ghost predicate ReadyInst(c: Certificate, inst: Instruction) {
    && inst.Callees() <= c.arities.Keys
    && (inst.Branch? ==> c.arities[inst.ifTrue].Net() == c.arities[inst.ifFalse].Net())
  }

  lemma ReadyStays(lib: Library, c: Certificate, d: Certificate, insts: Libraries.Sentence)
    requires Certifies(lib, c) && Certifies(lib, d) && Wider(c, d) && Ready(c, insts)
    ensures Ready(d, insts)
  {
    forall ip | 0 <= ip < |insts| ensures ReadyInst(d, insts[ip]) {
      assert ReadyInst(c, insts[ip]);
      if insts[ip].Branch? {
        CertificatesAgree(lib, c, d, insts[ip].ifTrue);
        CertificatesAgree(lib, c, d, insts[ip].ifFalse);
      }
    }
  }

  lemma ReadyJoins(c: Certificate, a: Libraries.Sentence, b: Libraries.Sentence, insts: Libraries.Sentence)
    requires Ready(c, a) && Ready(c, b) && insts == a + b
    ensures Ready(c, insts)
  {
    hide ReadyInst;
  }

  lemma {:induction false} ReadyHasEffect(c: Certificate, insts: Libraries.Sentence, k: nat)
    requires Ready(c, insts) && k <= |insts|
    ensures forall ip | 0 <= ip < |insts| :: insts[ip].Callees() <= c.arities.Keys
    ensures PrefixEffect(insts, k, c.arities).Some?
  {
    assert forall ip | 0 <= ip < |insts| :: ReadyInst(c, insts[ip]);
    if k > 0 {
      ReadyHasEffect(c, insts, k - 1);
    }
  }

  lemma CoverBlock(lib: Library, c: Certificate, t: SentenceIndex) returns (d: Certificate)
    requires Certifies(lib, c) && t < |lib.sentences| && Ready(c, lib.sentences[t])
    ensures Certifies(lib, d) && Wider(c, d) && t in d.arities
  {
    d := c;
    if t !in c.arities {
      var insts := lib.sentences[t];
      ReadyHasEffect(c, insts, |insts|);
      d := CoverOne(lib, c, t, PrefixEffect(insts, |insts|, c.arities).value);
    }
  }

  // ---- covering what words compile to ----

  ghost predicate Stands(lib: Library, code: Code) {
    forall t | t in code :: t < |lib.sentences| && lib.sentences[t] == code[t]
  }

  lemma {:induction false} CoverReach(
    lib: Library, c: Certificate, code: Code, kind: Reach, depth: nat, insts: Libraries.Sentence)
    returns (d: Certificate)
    requires Stands(lib, code) && Certifies(lib, c) && ReachCode(code, kind, depth, insts)
    ensures Certifies(lib, d) && Wider(c, d) && Ready(d, insts)
    decreases depth
  {
    hide Certifies;
    d := c;
    if depth > 0 && !(kind == Moving && depth == 1) {
      var t := insts[0].target;
      d := CoverReach(lib, c, code, kind, depth - 1, code[t]);
      d := CoverBlock(lib, d, t);
    }
  }

  lemma {:induction false} CoverFrame(
    lib: Library, c: Certificate, code: Code, depth: nat, target: SentenceIndex, inst: Instruction)
    returns (d: Certificate)
    requires Stands(lib, code) && Certifies(lib, c) && Framed(code, depth, target, inst) && target in c.arities
    ensures Certifies(lib, d) && Wider(c, d) && Ready(d, [inst])
    decreases depth
  {
    hide Certifies;
    d := c;
    if depth > 1 {
      d := CoverFrame(lib, c, code, depth - 1, target, code[inst.target][0]);
      assert code[inst.target] == [code[inst.target][0]];
      d := CoverBlock(lib, d, inst.target);
    }
  }

  lemma LocalIsReady(c: Certificate, insts: Libraries.Sentence)
    requires IsLocal(insts)
    ensures Ready(c, insts)
  {
  }

  // ---- one early return after another ----

  /** A draft of these bodies has exactly their early returns, in order, and each body branches only to its own. */
  ghost predicate Timely(d: Draft, bodies: seq<Body>, ok: Value) {
    && d.named == |bodies| && |d.early| == Count(bodies, |bodies|)
    && (forall s: nat | s < |bodies| :: Rendered(d, bodies, ok, s))
    && forall i: nat | i < |d.early| :: TailFiled(d, ok, i, AllTails(bodies, |bodies|)[i], d.early[i].inSentence)
  }

  ghost predicate Rendered(d: Draft, bodies: seq<Body>, ok: Value, s: nat)
    requires s < |bodies|
  {
    && s in d.code && Count(bodies, s) <= Count(bodies, s + 1) <= |d.early|
    && Renders(Emit(Span(d, Count(bodies, s), Count(bodies, s + 1))), ok, bodies[s], d.code[s])
  }

  /** A library as it stands when it is the turn of the `i`th early return of the draft. */
  datatype Scene = Scene(lib: Library, d: Draft, p: Program, rank: seq<nat>, top: seq<nat>, i: nat)

  /** What the failing arm has to drop: all its rest arm asks for, once it has had its turn. */
  function Drops(x: Scene, j: nat): int
    requires j < Count(x.p.bodies, |x.p.bodies|)
  {
    if j < x.i then -NetOf(x.p.nets, AllTails(x.p.bodies, |x.p.bodies|)[j]) else 0
  }

  ghost predicate HasDrops(x: Scene, j: nat)
    requires j < |x.d.early| == Count(x.p.bodies, |x.p.bodies|)
  {
    exists drop: SentenceIndex, k: nat :: Salvages(x.lib, x.p.err, x.d.early[j].fail, drop, k) && k == Drops(x, j)
  }

  ghost predicate Turned(x: Scene) {
    && Placed(x.lib, x.p, Emit(x.d)) && Timely(x.d, x.p.bodies, x.p.ok) && Settles(x.p.bodies, x.p.nets, x.rank, x.top)
    && x.i <= |x.d.early|
    && forall j: nat | j < |x.d.early| :: HasDrops(x, j)
  }

  /** Sentences marked no higher have had all their turns, or need none. */
  ghost predicate Past(x: Scene, lim: nat) {
    && |x.top| == |x.p.bodies|
    && forall t: nat | t < |x.top| && x.top[t] <= lim ::
      Count(x.p.bodies, t + 1) <= x.i || AllZero(x.p.nets, TailsOf(x.p.bodies[t]))
  }

  /** Code that branches to no early return from the `m`th on. */
  ghost predicate Before(x: Scene, e: Emitted, m: nat) {
    && e.code == x.d.code && e.named == x.d.named && m <= |x.d.early|
    && forall q | q in e.exits :: exists j: nat :: j < m && (x.d.early[j].rest, x.d.early[j].fail) == q
  }

  lemma SpanIsBefore(x: Scene, lo: nat, hi: nat)
    requires lo <= hi <= |x.d.early|
    ensures Before(x, Emit(Span(x.d, lo, hi)), hi)
  {
    var e := Emit(Span(x.d, lo, hi));
    forall q | q in e.exits ensures exists j: nat :: j < hi && (x.d.early[j].rest, x.d.early[j].fail) == q {
      var y: EarlyReturn :| y in x.d.early[lo..hi] && (y.rest, y.fail) == q;
      var j: nat :| j < |x.d.early[lo..hi]| && x.d.early[lo..hi][j] == y;
      assert x.d.early[lo + j] == y;
    }
  }

  lemma BeforeIsWithin(x: Scene, e: Emitted, m: nat)
    requires Before(x, e, m)
    ensures e.Within(Emit(x.d))
  {
    forall q | q in e.exits ensures q in Emit(x.d).exits {
      var j: nat :| j < m && (x.d.early[j].rest, x.d.early[j].fail) == q;
      assert x.d.early[j] in x.d.early;
    }
  }

  /** The net change of a block, from the words it renders. */
  lemma FiledNet(x: Scene, c: Certificate, e: Emitted, m: nat, t: SentenceIndex, body: Body)
    requires Placed(x.lib, x.p, Emit(x.d)) && Before(x, e, m) && Covered(x.lib, c, t)
    requires t in e.code && Renders(e, x.p.ok, body, e.code[t])
    ensures c.arities[t].Net() == NetOf(x.p.nets, body)
  {
    hide Renders; hide Before; hide Placed; hide Emitted.Within;
    BeforeIsWithin(x, e, m);
    EmittedCode(x, e, m);
    RendersStays(e, Emit(x.d), x.p.ok, body, e.code[t]);
    ResolvedNet(x.lib, c, x.p, Emit(x.d), Inline(body), t);
  }

  lemma EmittedCode(x: Scene, e: Emitted, m: nat)
    requires Before(x, e, m)
    ensures e.code == x.d.code == Emit(x.d).code && e.named == x.d.named && m <= |x.d.early|
  {
  }

  // ---- covering what words compile to, early returns included ----

  /** The failing arm covered; its net change is its drops. */
  lemma CoverArm(x: Scene, c: Certificate, j: nat) returns (d: Certificate)
    requires x.lib.Closed() && Certifies(x.lib, c)
    requires j < |x.d.early| == Count(x.p.bodies, |x.p.bodies|) && HasDrops(x, j)
    ensures Certifies(x.lib, d) && Wider(c, d) && x.d.early[j].fail in d.arities
    ensures d.arities[x.d.early[j].fail].Net() + Drops(x, j) == 0
  {
    hide Certifies;
    var f := x.d.early[j].fail;
    var drop: SentenceIndex, k: nat :| Salvages(x.lib, x.p.err, f, drop, k) && k == Drops(x, j);
    d := c;
    if f !in c.arities {
      if k == 0 {
        assert Salvages(x.lib, x.p.err, f, f + 1, 0) by {
          assert FailCode(x.p.err, drop, 0) == FailCode(x.p.err, f + 1, 0);
        }
        d := CoverFail(x.lib, c, x.p.err, f, f + 1, 0);
      } else {
        assert |x.lib.sentences[f]| == 2 + k && |x.lib.sentences[drop]| == 1;
        d := CoverFail(x.lib, c, x.p.err, f, drop, k);
      }
    }
    SalvageNet(x.lib, d, x.p.err, f, drop, k);
  }

  /** Where a `?` has had its turn, or needs no drops, its two arms change the height alike. */
  lemma ArmsLevel(x: Scene, c: Certificate, e: Emitted, m: nat, j: nat, rest: Body)
    requires Turned(x) && Before(x, e, m) && j < m && (m <= x.i || NetOf(x.p.nets, rest) == 0)
    requires Covered(x.lib, c, x.d.early[j].rest)
    requires x.d.early[j].rest in e.code && Renders(e, x.p.ok, rest, e.code[x.d.early[j].rest])
    ensures c.arities[x.d.early[j].rest].Net() + Drops(x, j) == 0
  {
    hide Renders; hide Placed; hide Settles;
    FiledNet(x, c, e, m, x.d.early[j].rest, rest);
    var tail := AllTails(x.p.bodies, |x.p.bodies|)[j];
    assert TailFiled(x.d, x.p.ok, j, tail, x.d.early[j].inSentence);
    UpToIsBefore(x, j);
    FiledNet(x, c, Emit(UpTo(x.d, j)), j, x.d.early[j].rest, tail);
  }

  lemma UpToIsBefore(x: Scene, j: nat)
    requires j <= |x.d.early|
    ensures Before(x, Emit(UpTo(x.d, j)), j)
  {
    assert x.d.early[..j] == x.d.early[0..j];
    assert UpTo(x.d, j) == Span(x.d, 0, j);
    SpanIsBefore(x, 0, j);
  }

  lemma {:induction false} CoverNamed(x: Scene, c: Certificate, lim: nat, s: SentenceIndex) returns (d: Certificate)
    requires Turned(x) && Past(x, lim) && Certifies(x.lib, c) && s < |x.p.bodies| == |x.rank| && x.top[s] <= lim
    ensures Certifies(x.lib, d) && Wider(c, d) && s in d.arities
    decreases x.rank[s], 1
  {
    var lo, hi := NamedParts(x, s, lim);
    hide Certifies; hide Renders; hide Level; hide CallsBelow; hide Turned; hide Past; hide Before; hide TailsOf;
    hide AllZero;
    d := CoverBody(x, c, lim, hi, Emit(Span(x.d, lo, hi)), x.rank[s], x.p.bodies[s], x.d.code[s]);
    d := CoverBlock(x.lib, d, s);
  }

  lemma NamedParts(x: Scene, s: nat, lim: nat) returns (lo: nat, hi: nat)
    requires Turned(x) && Past(x, lim) && s < |x.p.bodies| == |x.rank| && x.top[s] <= lim
    ensures lo <= hi <= |x.d.early| && Before(x, Emit(Span(x.d, lo, hi)), hi)
    ensures hi <= x.i || AllZero(x.p.nets, TailsOf(x.p.bodies[s]))
    ensures Level(x.p.nets, x.p.bodies[s]) && CallsBelow(x.rank, x.rank[s], x.p.bodies[s])
    ensures CallsBelow(x.top, lim + 1, x.p.bodies[s])
    ensures s in x.d.code && Renders(Emit(Span(x.d, lo, hi)), x.p.ok, x.p.bodies[s], x.d.code[s])
    ensures s < |x.lib.sentences| && x.lib.sentences[s] == x.d.code[s]
  {
    hide Renders; hide Level; hide CallsBelow; hide TailSettles; hide TailsOf; hide NetOf; hide HasDrops;
    assert SettlesAt(x.p.bodies[s], s, x.p.nets, x.rank, x.top) && Rendered(x.d, x.p.bodies, x.p.ok, s);
    lo, hi := Count(x.p.bodies, s), Count(x.p.bodies, s + 1);
    SpanIsBefore(x, lo, hi);
    BelowMore(x.top, x.top[s] + 1, x.top, lim + 1, x.p.bodies[s]);
  }

  lemma {:induction false} CoverTarget(
    x: Scene, c: Certificate, lim: nat, m: nat, e: Emitted, r: nat, target: Target, t: SentenceIndex)
    returns (d: Certificate)
    requires Turned(x) && Past(x, lim) && Certifies(x.lib, c) && Before(x, e, m)
    requires m <= x.i || AllZero(x.p.nets, TailsOfTarget(target))
    requires LevelTarget(x.p.nets, target) && TargetBelow(x.rank, r, target) && TargetBelow(x.top, lim + 1, target)
    requires Resolves(e, x.p.ok, target, t)
    ensures Certifies(x.lib, d) && Wider(c, d) && t in d.arities
    decreases r, 0, target
  {
    hide Certifies; hide Renders; hide Level; hide CallsBelow; hide Settles; hide Past; hide TailsOf;
    SceneParts(x, e, m);
    match target
    case Label(s) => d := CoverNamed(x, c, lim, s);
    case Inline(body) =>
      d := CoverBody(x, c, lim, m, e, r, body, e.code[t]);
      d := CoverBlock(x.lib, d, t);
  }

  lemma SceneParts(x: Scene, e: Emitted, m: nat)
    requires Turned(x) && Before(x, e, m)
    ensures e.code == x.d.code && e.named == |x.p.nets| == |x.p.bodies| == |x.rank| == |x.top| && x.lib.Closed()
    ensures Stands(x.lib, e.code)
  {
  }

  lemma {:induction false} CoverWord(
    x: Scene, c: Certificate, lim: nat, m: nat, e: Emitted, r: nat, word: Word, insts: Libraries.Sentence)
    returns (d: Certificate)
    requires Turned(x) && Past(x, lim) && Certifies(x.lib, c) && Before(x, e, m) && !word.Try?
    requires m <= x.i || AllZero(x.p.nets, TailsOfWord(word))
    requires LevelWord(x.p.nets, word) && WordBelow(x.rank, r, word) && WordBelow(x.top, lim + 1, word)
    requires RendersWord(e, x.p.ok, word, insts)
    ensures Certifies(x.lib, d) && Wider(c, d) && Ready(d, insts)
    decreases r, 0, word
  {
    hide Certifies; hide Renders; hide Level; hide CallsBelow; hide Resolves; hide LevelTarget; hide TargetBelow;
    hide Turned; hide Past; hide Before; hide TailsOfTarget;
    SceneParts(x, e, m);
    d := c;
    match word
    case Drop(depth) => d := CoverReach(x.lib, c, e.code, Discarding, depth, insts);
    case Pick(depth) => d := CoverReach(x.lib, c, e.code, Copying, depth, insts);
    case Roll(depth) => d := CoverReach(x.lib, c, e.code, Moving, depth, insts);
    case Jump(target) => d := CoverTarget(x, c, lim, m, e, r, target, insts[0].target);
    case Dip(depth, target) =>
      var t :| Framed(e.code, depth, t, insts[0]) && Resolves(e, x.p.ok, target, t);
      d := CoverTarget(x, c, lim, m, e, r, target, t);
      d := CoverFrame(x.lib, d, e.code, depth, t, insts[0]);
      assert insts == [insts[0]];
    case Branch(yes, no) =>
      ZeroSplits(x.p.nets, TailsOfTarget(yes), TailsOfTarget(no));
      d := CoverFork(x, c, lim, m, e, r, yes, no, insts[0]);
    case Check(Sentence(s)) => d := CoverNamed(x, c, lim, s);
    case _ =>
  }

  lemma {:induction false} CoverFork(
    x: Scene, c: Certificate, lim: nat, m: nat, e: Emitted, r: nat, yes: Target, no: Target, inst: Instruction)
    returns (d: Certificate)
    requires Turned(x) && Past(x, lim) && Certifies(x.lib, c) && Before(x, e, m) && inst.Branch?
    requires m <= x.i || (AllZero(x.p.nets, TailsOfTarget(yes)) && AllZero(x.p.nets, TailsOfTarget(no)))
    requires LevelTarget(x.p.nets, yes) && TargetBelow(x.rank, r, yes) && TargetBelow(x.top, lim + 1, yes)
    requires LevelTarget(x.p.nets, no) && TargetBelow(x.rank, r, no) && TargetBelow(x.top, lim + 1, no)
    requires NetOfTarget(x.p.nets, yes) == NetOfTarget(x.p.nets, no)
    requires Resolves(e, x.p.ok, yes, inst.ifTrue) && Resolves(e, x.p.ok, no, inst.ifFalse)
    ensures Certifies(x.lib, d) && Wider(c, d) && ReadyInst(d, inst)
    decreases r, 0, Word.Branch(yes, no), 0
  {
    hide Certifies; hide Renders; hide Resolves; hide LevelTarget; hide TargetBelow; hide Turned; hide Past;
    hide Before; hide TailsOfTarget; hide Placed;
    d := CoverTarget(x, c, lim, m, e, r, yes, inst.ifTrue);
    d := CoverTarget(x, d, lim, m, e, r, no, inst.ifFalse);
    SceneParts(x, e, m);
    ScenePlaced(x);
    BeforeIsWithin(x, e, m);
    ResolvesStays(e, Emit(x.d), x.p.ok, yes, inst.ifTrue);
    ResolvesStays(e, Emit(x.d), x.p.ok, no, inst.ifFalse);
    ResolvedNet(x.lib, d, x.p, Emit(x.d), yes, inst.ifTrue);
    ResolvedNet(x.lib, d, x.p, Emit(x.d), no, inst.ifFalse);
  }

  lemma ScenePlaced(x: Scene)
    requires Turned(x)
    ensures Placed(x.lib, x.p, Emit(x.d)) && x.lib.Closed()
    ensures |x.d.early| == Count(x.p.bodies, |x.p.bodies|) && forall j: nat | j < |x.d.early| :: HasDrops(x, j)
  {
  }

  /** Everything the code of a level body calls can be covered. */
  lemma {:induction false} CoverBody(
    x: Scene, c: Certificate, lim: nat, m: nat, e: Emitted, r: nat, body: Body, insts: Libraries.Sentence)
    returns (d: Certificate)
    requires Turned(x) && Past(x, lim) && Certifies(x.lib, c) && Before(x, e, m)
    requires m <= x.i || AllZero(x.p.nets, TailsOf(body))
    requires Level(x.p.nets, body) && CallsBelow(x.rank, r, body) && CallsBelow(x.top, lim + 1, body)
    requires Renders(e, x.p.ok, body, insts)
    ensures Certifies(x.lib, d) && Wider(c, d) && Ready(d, insts)
    decreases r, 0, body
  {
    hide Certifies; hide LevelWord; hide WordBelow; hide RendersWord; hide Turned; hide Past; hide Before; hide Ready;
    hide CallsBelow; hide Level; hide NetOf; hide TailsOf; hide TailsOfWord; hide AllZero;
    d := c;
    if body == [] {
      LocalIsReady(d, []);
    } else {
      LevelParts(x.p.nets, body);
      BelowParts(x.rank, r, body);
      BelowParts(x.top, lim + 1, body);
      ZeroParts(x.p.nets, body);
      if body[0].Try? {
        d := CoverBody(x, c, lim, m, e, r, body[1..], e.code[insts[5].ifTrue]);
        d := CoverTry(x, d, m, e, body[1..], insts);
      } else {
        var n := Length(body[0]);
        var first := CoverWord(x, c, lim, m, e, r, body[0], insts[..n]);
        d := CoverBody(x, first, lim, m, e, r, body[1..], insts[n..]);
        ReadyStays(x.lib, first, d, insts[..n]);
        ReadyJoins(d, insts[..n], insts[n..], insts);
      }
    }
  }

  lemma ZeroParts(nets: seq<int>, body: Body)
    requires body != []
    ensures AllZero(nets, TailsOf(body)) ==> AllZero(nets, TailsOf(body[1..]))
    ensures AllZero(nets, TailsOf(body)) && !body[0].Try? ==> AllZero(nets, TailsOfWord(body[0]))
    ensures AllZero(nets, TailsOf(body)) && body[0].Try? ==> NetOf(nets, body[1..]) == 0
  {
    hide NetOf;
    if body[0].Try? {
      ZeroSplits(nets, TailsOf(body[1..]), [body[1..]]);
      assert AllZero(nets, [body[1..]]) ==> NetOf(nets, [body[1..]][0]) == 0;
    } else {
      ZeroSplits(nets, TailsOfWord(body[0]), TailsOf(body[1..]));
    }
  }

  lemma ZeroSplits(nets: seq<int>, a: seq<Body>, b: seq<Body>)
    ensures AllZero(nets, a + b) ==> AllZero(nets, a) && AllZero(nets, b)
  {
    hide NetOf;
    if AllZero(nets, a + b) {
      assert forall k | 0 <= k < |a| :: a[k] == (a + b)[k];
      assert forall k | 0 <= k < |b| :: b[k] == (a + b)[|a| + k];
    }
  }

  /** The six instructions of a `?`, what follows it being covered. */
  lemma CoverTry(x: Scene, c: Certificate, m: nat, e: Emitted, rest: Body, insts: Libraries.Sentence)
    returns (d: Certificate)
    requires Turned(x) && Certifies(x.lib, c) && Before(x, e, m) && (m <= x.i || NetOf(x.p.nets, rest) == 0)
    requires AsksForAResult(e, x.p.ok, insts) && Renders(e, x.p.ok, rest, e.code[insts[5].ifTrue])
    requires Ready(c, e.code[insts[5].ifTrue])
    ensures Certifies(x.lib, d) && Wider(c, d) && Ready(d, insts)
  {
    hide Certifies; hide Turned; hide Renders; hide NetOf; hide HasDrops; hide Drops; hide Placed;
    SceneParts(x, e, m);
    ScenePlaced(x);
    var (yes, no, t, f) := (insts[4].ifTrue, insts[4].ifFalse, insts[5].ifTrue, insts[5].ifFalse);
    d := CoverBlock(x.lib, c, t);
    d := CoverLocal(x.lib, d, yes);
    d := CoverLocal(x.lib, d, no);
    var j: nat :| j < m && (x.d.early[j].rest, x.d.early[j].fail) == (t, f);
    d := CoverArm(x, d, j);
    ArmsLevel(x, d, e, m, j, rest);
    AnswerNet(x.lib, d, x.p.ok, yes);
    NoAnswerNet(x.lib, d, no);
    assert insts == insts[..4] + [insts[4], insts[5]];
    forall ip | 0 <= ip < 6 ensures ReadyInst(d, insts[ip]) {
      if ip < 4 {
        assert insts[ip] == insts[..4][ip];
      }
    }
  }

  lemma CoverLocal(lib: Library, c: Certificate, t: SentenceIndex) returns (d: Certificate)
    requires Certifies(lib, c) && t < |lib.sentences| && IsLocal(lib.sentences[t])
    ensures Certifies(lib, d) && Wider(c, d) && t in d.arities
  {
    LocalIsReady(c, lib.sentences[t]);
    d := CoverBlock(lib, c, t);
  }

  lemma NoAnswerNet(lib: Library, c: Certificate, t: SentenceIndex)
    requires Covered(lib, c, t) && lib.sentences[t] == [Local(Push(Bool(false)))]
    ensures c.arities[t].Net() == 1
  {
    hide NetAt; hide Certifies; hide Library.Closed;
    InRange(lib, c, t);
    NetAfter(lib, c, t, 0);
    NetGrows(lib, c, t, 0);
    NetGrows(lib, c, t, 1);
  }

  // ---- from one turn to the next ----

  /** When an early return of `s` has its turn, sentences marked no higher than `s` have had all of theirs. */
  lemma PastHere(x: Scene, s: nat, k: nat)
    requires Settles(x.p.bodies, x.p.nets, x.rank, x.top) && s < |x.p.bodies| && k < |TailsOf(x.p.bodies[s])|
    requires x.i == Count(x.p.bodies, s) + k
    ensures Past(x, s)
  {
    hide Level; hide CallsBelow; hide NetOf; hide TailsOf;
    forall t: nat | t < |x.top| && x.top[t] <= s
      ensures Count(x.p.bodies, t + 1) <= x.i || AllZero(x.p.nets, TailsOf(x.p.bodies[t]))
    {
      if t < s {
        CountGrows(x.p.bodies, t + 1, s);
      } else {
        assert SettlesAt(x.p.bodies[t], t, x.p.nets, x.rank, x.top);
        forall q | 0 <= q < |TailsOf(x.p.bodies[t])| ensures NetOf(x.p.nets, TailsOf(x.p.bodies[t])[q]) == 0 {
          assert TailSettles(TailsOf(x.p.bodies[t])[q], t, x.p.nets, x.top);
        }
      }
    }
  }

  lemma TailHere(x: Scene) returns (s: nat, tail: Body)
    requires Settles(x.p.bodies, x.p.nets, x.rank, x.top) && x.i < Count(x.p.bodies, |x.p.bodies|)
    ensures s < |x.p.bodies| == |x.rank| == |x.top| && Past(x, s) && tail == AllTails(x.p.bodies, |x.p.bodies|)[x.i]
    ensures TailSettles(tail, s, x.p.nets, x.top) && Level(x.p.nets, tail) && CallsBelow(x.rank, x.rank[s], tail)
  {
    hide Level; hide CallsBelow; hide NetOf; hide TailSettles; hide TailsOf;
    var k;
    s, k := OwnerOf(x.p.bodies, |x.p.bodies|, x.i);
    TailAt(x.p.bodies, s, k);
    PastHere(x, s, k);
    tail := TailsOf(x.p.bodies[s])[k];
    assert SettlesAt(x.p.bodies[s], s, x.p.nets, x.rank, x.top);
    TailsAreLevel(x.p.nets, x.p.bodies[s]);
    TailsAreBelow(x.rank, x.rank[s], x.p.bodies[s]);
  }

  /** A rest arm that takes more than it leaves has an arity when its turn comes. */
  lemma TailReckons(x: Scene)
    requires Turned(x) && x.i < |x.d.early|
    requires NetOf(x.p.nets, AllTails(x.p.bodies, |x.p.bodies|)[x.i]) < 0
    ensures Reckons(x.lib, x.d.early[x.i].rest)
  {
    hide Level; hide CallsBelow; hide NetOf; hide Past; hide Renders;
    var s, tail := TailHere(x);
    var rest := x.d.early[x.i].rest;
    assert TailFiled(x.d, x.p.ok, x.i, tail, x.d.early[x.i].inSentence);
    UpToIsBefore(x, x.i);
    var e := Emit(UpTo(x.d, x.i));
    var c := Certificate(map[], map[]);
    SceneParts(x, e, x.i);
    hide Turned; hide Before; hide Certifies;
    NothingCertified(x.lib);
    c := CoverBody(x, c, s, x.i, e, x.rank[s], tail, x.d.code[rest]);
    c := CoverBlock(x.lib, c, rest);
  }

  lemma NothingCertified(lib: Library)
    ensures Certifies(lib, Certificate(map[], map[]))
  {
  }

  /** Whatever certificate covers the rest arm, its net change is that of its words. */
  lemma RestNet(x: Scene, c: Certificate, j: nat)
    requires Turned(x) && j < |x.d.early| && Covered(x.lib, c, x.d.early[j].rest)
    ensures c.arities[x.d.early[j].rest].Net() == NetOf(x.p.nets, AllTails(x.p.bodies, |x.p.bodies|)[j])
  {
    hide Renders; hide Placed; hide Settles; hide NetOf;
    var tail := AllTails(x.p.bodies, |x.p.bodies|)[j];
    assert TailFiled(x.d, x.p.ok, j, tail, x.d.early[j].inSentence);
    UpToIsBefore(x, j);
    FiledNet(x, c, Emit(UpTo(x.d, j)), j, x.d.early[j].rest, tail);
  }

  /** No certificate gives this rest arm more than it takes. */
  ghost predicate NeverMore(lib: Library, site: EarlyReturn) {
    forall error :: !LeavesMore(lib, site, error)
  }

  lemma NeverLeavesMore(x: Scene)
    requires Turned(x) && x.i < |x.d.early|
    ensures NeverMore(x.lib, x.d.early[x.i])
  {
    var s, tail := TailHere(x);
    ScenePlaced(x);
    hide Turned; hide Certifies; hide NetOf; hide Past; hide Placed;
    forall error ensures !LeavesMore(x.lib, x.d.early[x.i], error) {
      if LeavesMore(x.lib, x.d.early[x.i], error) {
        var c: Certificate :| Certifies(x.lib, c) && x.d.early[x.i].rest in c.arities
          && c.arities[x.d.early[x.i].rest].Net() == error.excess > 0 && error.inSentence == x.d.early[x.i].inSentence;
        RestNet(x, c, x.i);
      }
    }
  }

  /** What the turn of an early return comes to: its failing arm has as many drops as the words of its rest ask for. */
  lemma TurnTaken(x: Scene, next: Library)
    returns (base: Library, drop: SentenceIndex, k: nat)
    requires Turned(x) && x.i < |x.d.early| && Turn(x.lib, next, x.d.early[x.i])
    requires x.d.early[x.i].fail < |x.lib.sentences|
    ensures k == -NetOf(x.p.nets, AllTails(x.p.bodies, |x.p.bodies|)[x.i])
    ensures base == x.lib || base == WithBlock(x.lib, [Instruction.Drop])
    ensures next == WithDrops(base, x.d.early[x.i].fail, drop, k)
    ensures k > 0 ==> drop < |next.sentences| && next.sentences[drop] == [Instruction.Drop]
  {
    var s, tail := TailHere(x);
    ScenePlaced(x);
    hide Certifies; hide NetOf; hide Past; hide Placed; hide Settles;
    var site := x.d.early[x.i];
    if Reckons(x.lib, site.rest) {
      var c: Certificate;
      c, drop, k :| Balanced(x.lib, next, site, c, drop, k);
      RestNet(x, c, x.i);
      base := if next == WithDrops(x.lib, site.fail, drop, k) then x.lib else WithBlock(x.lib, [Instruction.Drop]);
    } else {
      if NetOf(x.p.nets, tail) < 0 {
        TailReckons(x);
      }
      base, drop, k := x.lib, 0, 0;
      assert x.lib.sentences[site.fail] + seq(0, _ => Instruction.Dip(drop)) == x.lib.sentences[site.fail];
    }
  }

  lemma NextTurn(x: Scene, next: Library)
    requires Turned(x) && x.i < |x.d.early| && Turn(x.lib, next, x.d.early[x.i]) && next.Closed()
    requires Fine(x.d, x.p.err) && |x.d.sentences| <= |x.lib.sentences|
    ensures Turned(x.(lib := next, i := x.i + 1))
  {
    FailsApart(x.d, x.p.err, x.i);
    var f := x.d.early[x.i].fail;
    var base, drop, k := TurnTaken(x, next);
    var y := x.(lib := next, i := x.i + 1);
    StillPlaced(x, base, next, f, drop, k);
    ScenePlaced(x);
    hide Placed; hide Settles; hide Timely; hide NetOf; hide Fine; hide Turn; hide HasDrops; hide Drops;
    forall j: nat | j < |x.d.early| ensures HasDrops(y, j) {
      if j == x.i {
        NowHasDrops(x, y, base, drop, k);
      } else {
        StillHasDrops(x, y, base, drop, k, j);
      }
    }
  }

  lemma NowHasDrops(x: Scene, y: Scene, base: Library, drop: SentenceIndex, k: nat)
    requires x.i < |x.d.early| == Count(x.p.bodies, |x.p.bodies|) && y == x.(lib := y.lib, i := x.i + 1)
    requires HasDrops(x, x.i) && x.d.early[x.i].fail < |x.lib.sentences|
    requires k == -NetOf(x.p.nets, AllTails(x.p.bodies, |x.p.bodies|)[x.i])
    requires base == x.lib || base == WithBlock(x.lib, [Instruction.Drop])
    requires y.lib == WithDrops(base, x.d.early[x.i].fail, drop, k)
    requires k > 0 ==> drop < |y.lib.sentences| && y.lib.sentences[drop] == [Instruction.Drop]
    ensures HasDrops(y, x.i)
  {
    hide NetOf; hide AllTails;
    var f := x.d.early[x.i].fail;
    var d0: SentenceIndex, k0: nat :| Salvages(x.lib, x.p.err, f, d0, k0) && k0 == Drops(x, x.i);
    assert FailCode(x.p.err, d0, 0) == FailCode(x.p.err, drop, 0);
    assert y.lib.sentences[f] == FailCode(x.p.err, drop, 0) + seq(k, _ => Instruction.Dip(drop));
    assert y.lib.sentences[f] == FailCode(x.p.err, drop, k);
    assert Salvages(y.lib, x.p.err, f, drop, k);
  }

  lemma StillHasDrops(x: Scene, y: Scene, base: Library, drop: SentenceIndex, k: nat, j: nat)
    requires x.i < |x.d.early| == Count(x.p.bodies, |x.p.bodies|) && y == x.(lib := y.lib, i := x.i + 1)
    requires j < |x.d.early| && j != x.i && x.d.early[j].fail != x.d.early[x.i].fail
    requires HasDrops(x, j) && HasDrops(x, x.i) && x.d.early[x.i].fail < |x.lib.sentences|
    requires base == x.lib || base == WithBlock(x.lib, [Instruction.Drop])
    requires y.lib == WithDrops(base, x.d.early[x.i].fail, drop, k)
    ensures HasDrops(y, j)
  {
    hide NetOf; hide AllTails;
    var f := x.d.early[x.i].fail;
    var d0: SentenceIndex, k0: nat :| Salvages(x.lib, x.p.err, f, d0, k0) && k0 == Drops(x, x.i);
    assert |x.lib.sentences[f]| >= 2;
    var dj: SentenceIndex, kj: nat :| Salvages(x.lib, x.p.err, x.d.early[j].fail, dj, kj) && kj == Drops(x, j);
    assert Salvages(y.lib, x.p.err, x.d.early[j].fail, dj, kj);
  }

  lemma FailsApart(d: Draft, err: Value, i: nat)
    requires Fine(d, err) && i < |d.early|
    ensures d.early[i].fail !in d.code && d.early[i].fail < |d.sentences|
    ensures forall j: nat | j < |d.early| && j != i :: d.early[j].fail != d.early[i].fail
  {
    assert ExitFiled(d, err, d.early[i]);
  }

  lemma StillPlaced(x: Scene, base: Library, next: Library, f: SentenceIndex, drop: SentenceIndex, k: nat)
    requires Placed(x.lib, x.p, Emit(x.d)) && next.Closed() && f !in x.d.code && f < |x.lib.sentences|
    requires base == x.lib || base == WithBlock(x.lib, [Instruction.Drop])
    requires next == WithDrops(base, f, drop, k)
    ensures Placed(next, x.p, Emit(x.d))
  {
    hide Renders; hide NetOf;
  }

  // ---- the whole library covered ----

  /** Past the draft's own sentences there are only blocks with one `drop`, and annotations are where they were. */
  ghost predicate Padded(d: Draft, lib: Library) {
    && |d.sentences| == |d.annotations| <= |lib.sentences| == |lib.annotations|
    && (forall t: nat | |d.sentences| <= t < |lib.sentences| :: lib.sentences[t] == [Instruction.Drop])
    && (forall t: nat | |d.sentences| <= t < |lib.annotations| :: lib.annotations[t] == [])
    && (forall t: nat | t < |d.annotations| :: lib.annotations[t] == d.annotations[t])
  }

  lemma StaysPadded(d: Draft, lib: Library, base: Library, next: Library, f: SentenceIndex, drop: SentenceIndex, k: nat)
    requires Padded(d, lib) && f < |d.sentences|
    requires base == lib || base == WithBlock(lib, [Instruction.Drop])
    requires next == WithDrops(base, f, drop, k)
    ensures Padded(d, next)
  {
  }

  /** At every stage the failing arms have the drops they should by then. */
  lemma {:induction false} AtStage(x: Scene, stages: seq<Library>, k: nat)
    requires Fine(x.d, x.p.err) && k < |stages| && x.i == 0 && stages[0] == x.lib && Turned(x) && Padded(x.d, x.lib)
    requires |stages| <= |x.d.early| + 1
    requires forall i: nat | i < |stages| :: stages[i].Closed()
    requires forall i: nat | i < |stages| - 1 :: Turn(stages[i], stages[i + 1], x.d.early[i])
    ensures Turned(x.(lib := stages[k], i := k)) && Padded(x.d, stages[k])
    decreases k
  {
    hide Turned; hide Fine; hide Turn; hide Library.Closed; hide Padded;
    if k > 0 {
      AtStage(x, stages, k - 1);
      var y := x.(lib := stages[k - 1], i := k - 1);
      assert Turn(stages[k - 1], stages[k - 1 + 1], x.d.early[k - 1]);
      FailsApart(x.d, x.p.err, k - 1);
      PaddedIsLonger(x.d, y.lib);
      var base, drop, n := TurnTaken(y, stages[k]);
      StaysPadded(x.d, y.lib, base, stages[k], x.d.early[k - 1].fail, drop, n);
      NextTurn(y, stages[k]);
    }
  }

  lemma PaddedIsLonger(d: Draft, lib: Library)
    requires Padded(d, lib)
    ensures |d.sentences| <= |lib.sentences|
  {
  }

  function Above(rank: seq<nat>): (r: nat)
    ensures forall s | 0 <= s < |rank| :: rank[s] < r
  {
    if rank == [] then 0
    else
      var (last, rest) := (rank[|rank| - 1], Above(rank[..|rank| - 1]));
      if last < rest then rest else last + 1
  }

  /** Every block is settled and there for something, or is a failing arm; none is annotated. */
  ghost predicate Explained(nets: seq<int>, ok: Value, d: Draft) {
    |d.annotations| == |d.sentences| && forall t: nat | d.named <= t < |d.sentences| :: Accounted(nets, ok, d, t)
  }

  ghost predicate Accounted(nets: seq<int>, ok: Value, d: Draft, t: nat)
    requires t < |d.annotations|
  {
    d.annotations[t] == [] && if t in d.code then Piece(nets, ok, d, d.code[t]) else IsFail(d, t)
  }

  /** Every turn has been taken. */
  ghost predicate Over(x: Scene) {
    && Turned(x) && x.i == |x.d.early| && Past(x, Above(x.top))
    && Padded(x.d, x.lib) && Explained(x.p.nets, x.p.ok, x.d)
  }

  lemma NowOver(x: Scene)
    requires Turned(x) && x.i == |x.d.early| && Padded(x.d, x.lib) && Explained(x.p.nets, x.p.ok, x.d)
    ensures Over(x)
  {
    forall t: nat | t < |x.top| && x.top[t] <= Above(x.top) ensures Count(x.p.bodies, t + 1) <= x.i {
      CountGrows(x.p.bodies, t + 1, |x.p.bodies|);
    }
  }

  lemma CoverFiled(x: Scene, c: Certificate, t: SentenceIndex) returns (d: Certificate)
    requires Over(x) && Certifies(x.lib, c) && t in x.d.code && IsBlock(x.p.nets, x.p.ok, x.d, x.d.code[t])
    ensures Certifies(x.lib, d) && Wider(c, d) && t in d.arities
  {
    hide Certifies; hide Renders; hide Level; hide CallsBelow; hide Past; hide Padded; hide Explained; hide AllZero;
    var body :| Level(x.p.nets, body) && Renders(Emit(x.d), x.p.ok, body, x.d.code[t]);
    var m, lim, r := |x.d.early|, Above(x.top), Above(x.rank);
    assert Span(x.d, 0, m) == x.d;
    SpanIsBefore(x, 0, m);
    SceneParts(x, Emit(x.d), m);
    LevelIsBelow(x.p.nets, x.rank, r, body);
    LevelIsBelow(x.p.nets, x.top, lim + 1, body);
    hide Turned; hide Before;
    d := CoverBody(x, c, lim, m, Emit(x.d), r, body, x.d.code[t]);
    d := CoverBlock(x.lib, d, t);
  }

  lemma OverParts(x: Scene)
    requires Over(x)
    ensures Turned(x) && Past(x, Above(x.top)) && x.i == |x.d.early| == Count(x.p.bodies, |x.p.bodies|)
    ensures Stands(x.lib, x.d.code)
    ensures forall t | t in x.d.code :: t < |x.lib.sentences| && x.lib.sentences[t] == x.d.code[t]
    ensures x.d.named == |x.p.bodies| == |x.rank| == |x.top| && x.lib.Closed()
    ensures forall j: nat | j < |x.d.early| :: HasDrops(x, j)
    ensures forall t: nat | |x.d.sentences| <= t < |x.lib.sentences| :: x.lib.sentences[t] == [Instruction.Drop]
    ensures |x.d.annotations| == |x.d.sentences|
    ensures forall t: nat | x.d.named <= t < |x.d.sentences| :: Accounted(x.p.nets, x.p.ok, x.d, t)
  {
    hide Piece; hide HasDrops; hide Past;
  }

  lemma FrameParts(x: Scene, t: SentenceIndex) returns (depth: nat, target: SentenceIndex)
    requires t in x.d.code && IsFrame(x.p.nets, x.p.ok, x.d, x.d.code[t])
    ensures |x.d.code[t]| == 1 && Framed(x.d.code, depth, target, x.d.code[t][0])
    ensures target < x.d.named || (target in x.d.code && IsBlock(x.p.nets, x.p.ok, x.d, x.d.code[target]))
  {
    hide IsBlock;
    depth, target :| Framed(x.d.code, depth, target, x.d.code[t][0]) && Standing(x.p.nets, x.p.ok, x.d, target);
  }

  lemma CoverFramed(x: Scene, c: Certificate, t: SentenceIndex) returns (d: Certificate)
    requires Over(x) && Certifies(x.lib, c) && t in x.d.code && IsFrame(x.p.nets, x.p.ok, x.d, x.d.code[t])
    ensures Certifies(x.lib, d) && Wider(c, d) && t in d.arities
  {
    hide *;
    OverParts(x);
    var depth, target := FrameParts(x, t);
    var before := CoverStanding(x, c, target);
    var framed := CoverFrame(x.lib, before, x.d.code, depth, target, x.d.code[t][0]);
    assert x.d.code[t] == [x.d.code[t][0]];
    d := CoverBlock(x.lib, framed, t);
    WiderOn(c, before, framed);
    WiderOn(c, framed, d);
  }

  lemma CoverStanding(x: Scene, c: Certificate, t: SentenceIndex) returns (d: Certificate)
    requires Over(x) && Certifies(x.lib, c)
    requires t < x.d.named || (t in x.d.code && IsBlock(x.p.nets, x.p.ok, x.d, x.d.code[t]))
    ensures Certifies(x.lib, d) && Wider(c, d) && t in d.arities
  {
    hide *;
    OverParts(x);
    if t < x.d.named {
      d := CoverNamed(x, c, Above(x.top), t);
    } else {
      d := CoverFiled(x, c, t);
    }
  }

  lemma WiderOn(a: Certificate, b: Certificate, c: Certificate)
    requires Wider(a, b) && Wider(b, c)
    ensures Wider(a, c)
  {
  }

  lemma CoverPiece(x: Scene, c: Certificate, t: SentenceIndex) returns (d: Certificate)
    requires Over(x) && Certifies(x.lib, c) && t in x.d.code && Piece(x.p.nets, x.p.ok, x.d, x.d.code[t])
    ensures Certifies(x.lib, d) && Wider(c, d) && t in d.arities
  {
    OverParts(x);
    hide Certifies; hide IsBlock; hide IsFrame; hide ReachCode; hide Renders; hide Over; hide Turned; hide Past;
    hide Accounted;
    var insts, lim := x.d.code[t], Above(x.top);
    if IsReach(x.d, insts) {
      var kind, depth :| ReachCode(x.d.code, kind, depth, insts);
      d := CoverReach(x.lib, c, x.d.code, kind, depth, insts);
      d := CoverBlock(x.lib, d, t);
    } else if IsFrame(x.p.nets, x.p.ok, x.d, insts) {
      d := CoverFramed(x, c, t);
    } else if IsBlock(x.p.nets, x.p.ok, x.d, insts) {
      d := CoverFiled(x, c, t);
    } else {
      d := CoverLocal(x.lib, c, t);
    }
  }

  lemma CoverNext(x: Scene, c: Certificate, t: SentenceIndex) returns (d: Certificate)
    requires Over(x) && Certifies(x.lib, c) && t < |x.lib.sentences|
    ensures Certifies(x.lib, d) && Wider(c, d) && t in d.arities
  {
    hide *;
    OverParts(x);
    if t < x.d.named {
      d := CoverNamed(x, c, Above(x.top), t);
    } else if t >= |x.d.sentences| {
      DropIsReady(c);
      d := CoverBlock(x.lib, c, t);
    } else {
      AccountedParts(x, t);
      if t in x.d.code {
        d := CoverPiece(x, c, t);
      } else {
        var j: nat :| j < |x.d.early| && x.d.early[j].fail == t;
        d := CoverArm(x, c, j);
      }
    }
  }

  lemma DropIsReady(c: Certificate)
    ensures Ready(c, [Instruction.Drop])
  {
  }

  lemma AccountedParts(x: Scene, t: SentenceIndex)
    requires t < |x.d.annotations| && Accounted(x.p.nets, x.p.ok, x.d, t)
    ensures t in x.d.code ==> Piece(x.p.nets, x.p.ok, x.d, x.d.code[t])
    ensures t !in x.d.code ==> exists j: nat :: j < |x.d.early| && x.d.early[j].fail == t
  {
    hide Piece;
  }

  /** With every turn taken all of the library has stack effects: named sentences, blocks and failing arms alike. */
  lemma {:induction false} CoverAll(x: Scene, n: nat) returns (c: Certificate)
    requires Over(x) && n <= |x.lib.sentences|
    ensures Certifies(x.lib, c) && forall t | 0 <= t < n :: t in c.arities
    decreases n
  {
    hide Over; hide Certifies;
    if n == 0 {
      c := Certificate(map[], map[]);
      NothingCertified(x.lib);
    } else {
      var before := CoverAll(x, n - 1);
      c := CoverNext(x, before, n - 1);
    }
  }
}
