/** What compiled words look like, and that on a certified library they do what the words say. */
module Emitting {
  import opened Values
  import opened Prims
  import opened Terms
  import opened Libraries
  import opened Surface

  // ---- the shape of compiled code ----

  /**
   * How many sentences have names of their own, the blocks whose bodies are settled, and the two arms of
   * every `?` met so far.
   */
  datatype Emitted = Emitted(
    named: nat, code: map<SentenceIndex, Libraries.Sentence>, exits: set<(SentenceIndex, SentenceIndex)>)
  {
    ghost predicate Within(later: Emitted) {
      && named == later.named
      && code.Keys <= later.code.Keys && (forall t | t in code :: later.code[t] == code[t])
      && exits <= later.exits
    }
  }

  function ReachLength(kind: Reach, d: nat): nat {
    if kind == Moving && d == 0 then 0
    else if d == 0 || kind == Discarding || (kind == Moving && d == 1) then 1
    else 2
  }

  /** The code of a movement: below the first value, a block that holds the movement for `d - 1`. */
  ghost predicate ReachCode(
    code: map<SentenceIndex, Libraries.Sentence>, kind: Reach, d: nat, insts: Libraries.Sentence)
    decreases d
  {
    if d == 0 then
      match kind
      case Discarding => insts == [Instruction.Drop]
      case Copying => insts == [Instruction.Copy]
      case Moving => insts == []
    else if kind == Moving && d == 1 then insts == [Local(Swap)]
    else
      && |insts| == ReachLength(kind, d)
      && insts[0].Dip? && insts[0].target in code && ReachCode(code, kind, d - 1, code[insts[0].target])
      && (kind != Discarding ==> insts[1] == Local(Swap))
  }

  /** The instruction enters `target` with `d` values put aside, one by each nested block. */
  ghost predicate Framed(code: map<SentenceIndex, Libraries.Sentence>, d: nat, target: SentenceIndex, inst: Instruction)
    decreases d
  {
    if d == 0 then inst == Instruction.Jump(target)
    else if d == 1 then inst == Instruction.Dip(target)
    else
      && inst.Dip? && inst.target in code && |code[inst.target]| == 1
      && Framed(code, d - 1, target, code[inst.target][0])
  }

  function Length(word: Word): nat {
    match word
    case Drop(d) => ReachLength(Discarding, d)
    case Pick(d) => ReachLength(Copying, d)
    case Roll(d) => ReachLength(Moving, d)
    case Check(Const(_)) => 2
    case Try => 6
    case _ => 1
  }

  ghost predicate Resolves(e: Emitted, ok: Value, target: Target, t: SentenceIndex)
    decreases target
  {
    match target
    case Label(s) => t == s && s < e.named
    case Inline(body) => t in e.code && Renders(e, ok, body, e.code[t])
  }

  ghost predicate RendersWord(e: Emitted, ok: Value, word: Word, insts: Libraries.Sentence)
    requires !word.Try?
    decreases word
  {
    match word
    case Plain(prim) => insts == [Local(prim)]
    case Drop(d) => ReachCode(e.code, Discarding, d, insts)
    case Pick(d) => ReachCode(e.code, Copying, d, insts)
    case Roll(d) => ReachCode(e.code, Moving, d, insts)
    case Jump(target) => |insts| == 1 && insts[0].Jump? && Resolves(e, ok, target, insts[0].target)
    case Dip(d, target) =>
      |insts| == 1 && exists t :: Framed(e.code, d, t, insts[0]) && Resolves(e, ok, target, t)
    case Branch(yes, no) =>
      && |insts| == 1 && insts[0].Branch?
      && Resolves(e, ok, yes, insts[0].ifTrue) && Resolves(e, ok, no, insts[0].ifFalse)
    case Check(Sentence(s)) => insts == [Instruction.Jump(s)] && s < e.named
    case Check(Const(v)) => insts == [Local(Push(v)), Local(Equal)]
  }

  /** The six instructions a `?` is, up to which blocks they name. */
  ghost predicate AsksForAResult(e: Emitted, ok: Value, insts: Libraries.Sentence) {
    && |insts| == 6 && insts[..4] == [Instruction.Copy, Instruction.Copy, Local(AsTuple(2)), Local(Equal)]
    && insts[4].Branch? && insts[4].ifTrue in e.code && insts[4].ifFalse in e.code
    && e.code[insts[4].ifTrue] == [Local(Untuple(2)), Local(Push(ok)), Local(Equal)]
    && e.code[insts[4].ifFalse] == [Local(Push(Bool(false)))]
    && insts[5].Branch? && insts[5].ifTrue in e.code && (insts[5].ifTrue, insts[5].ifFalse) in e.exits
  }

  ghost predicate Renders(e: Emitted, ok: Value, body: Body, insts: Libraries.Sentence)
    decreases body
  {
    if body == [] then insts == []
    else if body[0].Try? then
      AsksForAResult(e, ok, insts) && Renders(e, ok, body[1..], e.code[insts[5].ifTrue])
    else
      var n := Length(body[0]);
      n <= |insts| && RendersWord(e, ok, body[0], insts[..n]) && Renders(e, ok, body[1..], insts[n..])
  }

  // ---- code already compiled stays compiled ----

  lemma {:induction false} ReachCodeStays(e: Emitted, later: Emitted, kind: Reach, d: nat, insts: Libraries.Sentence)
    requires e.Within(later) && ReachCode(e.code, kind, d, insts)
    ensures ReachCode(later.code, kind, d, insts)
    decreases d
  {
    if d > 1 || (d == 1 && kind != Moving) {
      ReachCodeStays(e, later, kind, d - 1, e.code[insts[0].target]);
    }
  }

  lemma {:induction false} FramedStays(e: Emitted, later: Emitted, d: nat, target: SentenceIndex, inst: Instruction)
    requires e.Within(later) && Framed(e.code, d, target, inst)
    ensures Framed(later.code, d, target, inst)
    decreases d
  {
    if d > 1 {
      FramedStays(e, later, d - 1, target, e.code[inst.target][0]);
    }
  }

  lemma {:induction false} ResolvesStays(e: Emitted, later: Emitted, ok: Value, target: Target, t: SentenceIndex)
    requires e.Within(later) && Resolves(e, ok, target, t)
    ensures Resolves(later, ok, target, t)
    decreases target
  {
    if target.Inline? {
      RendersStays(e, later, ok, target.body, e.code[t]);
    }
  }

  lemma {:induction false} RendersWordStays(
    e: Emitted, later: Emitted, ok: Value, word: Word, insts: Libraries.Sentence)
    requires e.Within(later) && !word.Try? && RendersWord(e, ok, word, insts)
    ensures RendersWord(later, ok, word, insts)
    decreases word
  {
    match word
    case Drop(d) => ReachCodeStays(e, later, Discarding, d, insts);
    case Pick(d) => ReachCodeStays(e, later, Copying, d, insts);
    case Roll(d) => ReachCodeStays(e, later, Moving, d, insts);
    case Jump(target) => ResolvesStays(e, later, ok, target, insts[0].target);
    case Dip(d, target) =>
      var t :| Framed(e.code, d, t, insts[0]) && Resolves(e, ok, target, t);
      FramedStays(e, later, d, t, insts[0]);
      ResolvesStays(e, later, ok, target, t);
    case Branch(yes, no) =>
      ResolvesStays(e, later, ok, yes, insts[0].ifTrue);
      ResolvesStays(e, later, ok, no, insts[0].ifFalse);
    case _ =>
  }

  lemma {:induction false} RendersStays(e: Emitted, later: Emitted, ok: Value, body: Body, insts: Libraries.Sentence)
    requires e.Within(later) && Renders(e, ok, body, insts)
    ensures Renders(later, ok, body, insts)
    decreases body
  {
    if body != [] {
      if body[0].Try? {
        RendersStays(e, later, ok, body[1..], e.code[insts[5].ifTrue]);
      } else {
        var n := Length(body[0]);
        RendersWordStays(e, later, ok, body[0], insts[..n]);
        RendersStays(e, later, ok, body[1..], insts[n..]);
      }
    }
  }

  /** Code for one body after code for another, where the first cannot leave early. */
  lemma {:induction false} RendersJoins(
    e: Emitted, ok: Value, a: Body, b: Body, x: Libraries.Sentence, y: Libraries.Sentence)
    requires Straight(a) && Renders(e, ok, a, x) && Renders(e, ok, b, y)
    ensures Renders(e, ok, a + b, x + y)
    decreases |a|
  {
    if a == [] {
      assert a + b == b && x + y == y;
    } else {
      var n := Length(a[0]);
      assert (a + b)[0] == a[0] && (a + b)[1..] == a[1..] + b;
      assert (x + y)[..n] == x[..n] && (x + y)[n..] == x[n..] + y;
      RendersJoins(e, ok, a[1..], b, x[n..], y);
    }
  }

  lemma RendersOne(e: Emitted, ok: Value, word: Word, insts: Libraries.Sentence)
    requires !word.Try? && |insts| == Length(word) && RendersWord(e, ok, word, insts)
    ensures Renders(e, ok, [word], insts)
  {
    assert [word][1..] == [] && insts[..|insts|] == insts && insts[|insts|..] == [];
  }
}
