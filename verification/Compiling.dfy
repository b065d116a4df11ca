/** The compiler's back end: depths into frames, blocks into sentences, `?` into branches. */
module Compiling {
  import opened Values
  import opened Prims
  import opened Terms
  import opened Libraries
  import opened Surface
  import opened Emitting
  import opened Expansions
  import opened Drafts

  /** Every label is one of the `n` named sentences. */
  predicate Labelled(body: Body, n: nat)
    decreases body
  {
    forall k | 0 <= k < |body| :: WordLabelled(body[k], n)
  }

  predicate WordLabelled(word: Word, n: nat)
    decreases word
  {
    match word
    case Jump(t) => TargetLabelled(t, n)
    case Dip(_, t) => TargetLabelled(t, n)
    case Branch(t, f) => TargetLabelled(t, n) && TargetLabelled(f, n)
    case Check(Sentence(s)) => s < n
    case _ => true
  }

  predicate TargetLabelled(target: Target, n: nat)
    decreases target
  {
    match target
    case Label(s) => s < n
    case Inline(body) => Labelled(body, n)
  }

  class Compiler {
    const ok: Value
    const err: Value
    const named: nat
    /** The net changes the named sentences are claimed to have. */
    ghost const nets: seq<int>
    var sentences: seq<Libraries.Sentence>
    var names: seq<string>
    var annotations: seq<seq<Arity>>
    var earlyReturns: seq<EarlyReturn>
    var currentSentence: string
    var reaches: map<(Reach, nat), SentenceIndex>
    var frames: map<(nat, SentenceIndex), SentenceIndex>
    /** The blocks whose bodies will not change again. */
    ghost var code: Code

    ghost function View(): Draft
      reads this
    {
      Draft(named, sentences, names, annotations, earlyReturns, code, reaches, frames)
    }

    ghost predicate Valid()
      reads this
    {
      Fine(View(), err)
    }

    /** Room for the named sentences; nothing compiled yet. */
    constructor (named: nat, ok: Value, err: Value, ghost nets: seq<int>)
      ensures Valid() && this.named == named && this.ok == ok && this.err == err && this.nets == nets
      ensures sentences == seq(named, _ => []) && names == seq(named, _ => "") && annotations == seq(named, _ => [])
      ensures earlyReturns == [] && code == map[]
    {
      this.ok, this.err, this.named, this.nets := ok, err, named, nets;
      sentences, names, annotations := seq(named, _ => []), seq(named, _ => ""), seq(named, _ => []);
      earlyReturns, currentSentence, reaches, frames, code := [], "", map[], map[], map[];
    }

    /** A new sentence at the end of the library, under the name all blocks share. */
    method PushBlock(body: Libraries.Sentence, ghost settled: bool) returns (t: SentenceIndex)
      requires Valid() && ProperCode(body, |sentences|, earlyReturns)
      modifies this
      ensures Valid() && View() == Pushed(old(View()), body, settled) && t == old(|sentences|)
      ensures Grown(old(View()), View()) && currentSentence == old(currentSentence)
    {
      PushedIsFine(View(), err, body, settled);
      t := |sentences|;
      sentences, names, annotations := sentences + [body], names + [INLINE_BLOCK], annotations + [[]];
      if settled {
        code := code[t := body];
      }
    }

    /** What a method files on the way leaves everything filed before as it was. */
    twostate predicate Files()
      reads this
    {
      Valid() && Grown(old(View()), View()) && currentSentence == old(currentSentence)
    }

    /** The early returns recorded on the way are for these tails, in this order. */
    twostate predicate Records(tails: seq<Body>)
      reads this
    {
      TailsFiled(View(), ok, |old(earlyReturns)|, tails, currentSentence)
    }

    /** What is settled, and of the early returns those recorded from the `n`th on. */
    ghost function EmitSince(n: nat): Emitted
      reads this
      requires n <= |earlyReturns|
    {
      Emit(Since(View(), n))
    }

    /** `pick d`, `roll d` or `drop d`: one recursion, three ways. */
    method ReachFor(kind: Reach, depth: nat) returns (insts: Libraries.Sentence)
      requires Valid()
      modifies this
      ensures Files() && ReachCode(code, kind, depth, insts) && ProperCode(insts, |sentences|, earlyReturns)
      ensures |insts| == ReachLength(kind, depth) && Adds(nets, ok, old(View()), View())
      ensures earlyReturns == old(earlyReturns)
      ensures forall key | key in reaches :: key in old(reaches) || key.1 < depth
      decreases depth, 0
    {
      hide AllProper; hide ExitsFiled; hide ReachesFiled; hide FramesFiled; hide Grown; hide Adds;
      GrownFromItself(View());
      AddsNothing(nets, ok, View(), err);
      if depth == 0 {
        match kind {
          case Discarding => insts := [Instruction.Drop];
          case Copying => insts := [Instruction.Copy];
          case Moving => insts := [];
        }
      } else if kind == Moving && depth == 1 {
        insts := [Local(Swap)];
      } else {
        var inner := ReachBlock(kind, depth - 1);
        SettledIsCallable(View(), err, inner);
        insts := [Instruction.Dip(inner)];
        if kind != Discarding {
          insts := insts + [Local(Swap)];
        }
      }
    }

    /** The block for this movement and depth: the one in the table, or a new one that goes into it. */
    method ReachBlock(kind: Reach, depth: nat) returns (t: SentenceIndex)
      requires Valid()
      modifies this
      ensures Files() && ReachFiled(View(), kind, depth, t) && Adds(nets, ok, old(View()), View())
      ensures (kind, depth) in reaches && reaches[(kind, depth)] == t && earlyReturns == old(earlyReturns)
      ensures (kind, depth) in old(reaches) ==> View() == old(View())
      ensures forall key | key in reaches :: key in old(reaches) || key.1 <= depth
      decreases depth, 1
    {
      hide AllProper; hide ExitsFiled; hide FramesFiled; hide ReachCode; hide Adds;
      if (kind, depth) in reaches {
        AddsNothing(nets, ok, View(), err);
        t := reaches[(kind, depth)];
        assert ReachFiled(View(), (kind, depth).0, (kind, depth).1, t);
        return;
      }
      var body := ReachFor(kind, depth);
      ghost var before := View();
      t := ShareReach(kind, depth, body);
      GrowsOn(old(View()), before, View());
      AddsOn(nets, ok, old(View()), before, View());
    }

    /** A movement's code, filed and shared per movement and depth. */
    method ShareReach(kind: Reach, depth: nat, body: Libraries.Sentence) returns (t: SentenceIndex)
      requires Valid() && ReachCode(code, kind, depth, body) && ProperCode(body, |sentences|, earlyReturns)
      requires (kind, depth) !in reaches
      modifies this
      ensures Files() && ReachFiled(View(), kind, depth, t) && Adds(nets, ok, old(View()), View())
      ensures reaches == old(reaches)[(kind, depth) := t] && earlyReturns == old(earlyReturns)
    {
      hide Fine; hide Grown; hide Adds; hide ReachCode;
      ghost var before := View();
      t := PushBlock(body, true);
      GrownWithin(before, View());
      ReachCodeStays(Emit(before), Emit(View()), kind, depth, body);
      assert IsReach(before, body);
      AddsBlock(nets, ok, before, err, body);
      ghost var filed := View();
      SharedReach(filed, err, kind, depth, t);
      reaches := reaches[(kind, depth) := t];
      GrowsOn(before, filed, View());
      AddsAShare(nets, ok, filed, err, View());
      AddsOn(nets, ok, before, filed, View());
    }

    /** One instruction that runs `target` below `depth` values; past the first, a block per further value. */
    method FrameFor(depth: nat, target: SentenceIndex) returns (inst: Instruction)
      requires Valid() && Callable(View(), target)
      modifies this
      ensures Files() && Framed(code, depth, target, inst) && Proper(inst, |sentences|, earlyReturns)
      ensures depth > 1 ==> (depth, target) in frames && inst == Instruction.Dip(frames[(depth, target)])
      ensures depth <= 1 || (depth, target) in old(frames) ==> View() == old(View())
      ensures forall key | key in frames :: key in old(frames) || key.0 <= depth
      ensures earlyReturns == old(earlyReturns)
      ensures Standing(nets, ok, old(View()), target) ==> Adds(nets, ok, old(View()), View())
      decreases depth
    {
      hide AllProper; hide ExitsFiled; hide ReachesFiled; hide ExitFiled; hide ReachCode; hide Adds;
      AddsNothing(nets, ok, View(), err);
      if depth == 0 {
        inst := Instruction.Jump(target);
      } else if depth == 1 {
        inst := Instruction.Dip(target);
      } else if (depth, target) in frames {
        var t := frames[(depth, target)];
        assert FrameFiled(View(), (depth, target).0, (depth, target).1, t);
        SettledIsCallable(View(), err, t);
        inst := Instruction.Dip(t);
      } else {
        var inner := FrameFor(depth - 1, target);
        ghost var before := View();
        var t := ShareFrame(depth, target, inner);
        GrowsOn(old(View()), before, View());
        if Standing(nets, ok, old(View()), target) {
          GrownWithin(old(View()), before);
          StandingStays(nets, ok, old(View()), before, target);
          AddsOn(nets, ok, old(View()), before, View());
        }
        inst := Instruction.Dip(t);
      }
    }

    /** A frame around a shallower one, filed and shared per depth and target. */
    method ShareFrame(depth: nat, target: SentenceIndex, inner: Instruction) returns (t: SentenceIndex)
      requires Valid() && depth > 1 && Framed(code, depth - 1, target, inner)
      requires Proper(inner, |sentences|, earlyReturns) && (depth, target) !in frames
      modifies this
      ensures Files() && Callable(View(), t) && frames == old(frames)[(depth, target) := t]
      ensures earlyReturns == old(earlyReturns)
      ensures Framed(code, depth, target, Instruction.Dip(t)) && Proper(Instruction.Dip(t), |sentences|, earlyReturns)
      ensures Standing(nets, ok, old(View()), target) ==> Adds(nets, ok, old(View()), View())
    {
      hide Fine; hide Grown; hide Callable; hide Adds; hide Piece;
      ghost var before := View();
      t := PushBlock([inner], true);
      GrownWithin(before, View());
      FramedStays(Emit(before), Emit(View()), depth - 1, target, inner);
      ghost var filed := View();
      SharedFrame(filed, err, depth, target, t);
      frames := frames[(depth, target) := t];
      GrowsOn(before, filed, View());
      if Standing(nets, ok, before, target) {
        FrameIsPiece(before, depth - 1, target, inner);
        AddsBlock(nets, ok, before, err, [inner]);
        AddsAShare(nets, ok, filed, err, View());
        AddsOn(nets, ok, before, filed, View());
      }
      SettledIsCallable(View(), err, t);
      CallableIsProper(View(), t);
    }

    lemma FrameIsPiece(d: Draft, depth: nat, target: SentenceIndex, inner: Instruction)
      requires Framed(d.code, depth, target, inner) && Standing(nets, ok, d, target)
      ensures Piece(nets, ok, d, [inner])
    {
      assert Framed(d.code, depth, target, [inner][0]);
      assert IsFrame(nets, ok, d, [inner]);
    }

    /** A label is the sentence it names; a block in place is compiled and filed where its room was kept. */
    method ResolveTarget(target: Target) returns (t: SentenceIndex)
      requires Valid() && TargetLabelled(target, named)
      modifies this
      ensures Files() && Callable(View(), t) && |old(earlyReturns)| <= |earlyReturns|
      ensures Resolves(EmitSince(|old(earlyReturns)|), ok, target, t) && Records(TailsOfTarget(target))
      ensures LevelTarget(nets, target) ==> Adds(nets, ok, old(View()), View())
      decreases target
    {
      hide Fine; hide Grown; hide Callable; hide Renders; hide ProperCode; hide Adds; hide Level; hide TailFiled;
      hide TailsOf; hide TailsFiled;
      match target {
        case Label(s) =>
          GrownFromItself(View());
          AddsNothing(nets, ok, View(), err);
          SettledIsCallable(View(), err, s);
          NoTails(View());
          t := s;
        case Inline(body) =>
          ghost var d0 := View();
          t := PushBlock([], false);
          ghost var d1 := View();
          KeptOpen(d0, err);
          var compiled := CompileBody(body);
          ghost var d2 := View();
          StillOpen(d0, d1, d2, err, t);
          FilledIsFine(d2, err, t, compiled);
          FilledGrows(d0, d1, d2, t, compiled);
          GrownWrote(d1, d2);
          FilledWrote(d2, |d0.early|, t, body, compiled);
          TailsFiledStay(d2, Filled(d2, t, compiled), ok, |d0.early|, TailsOf(body), currentSentence);
          if Level(nets, body) {
            SinceRenders(d2, |d0.early|, body, compiled);
            BlockFills(d0, d1, d2, t, body, compiled);
          }
          sentences := sentences[t := compiled];
          code := code[t := compiled];
          assert View() == Filled(d2, t, compiled);
          SettledIsCallable(View(), err, t);
      }
    }

    lemma NoTails(d: Draft)
      ensures TailsFiled(d, ok, |d.early|, [], currentSentence)
    {
    }

    lemma SinceRenders(d: Draft, n: nat, body: Body, insts: Libraries.Sentence)
      requires n <= |d.early| && Renders(Emit(Since(d, n)), ok, body, insts)
      ensures Renders(Emit(d), ok, body, insts)
    {
      hide Renders;
      SinceWider(d, n, n);
      RendersStays(Emit(Since(d, n)), Emit(d), ok, body, insts);
    }

    /** A block filed in its room resolves to what it was compiled from. */
    lemma FilledWrote(d: Draft, n: nat, t: SentenceIndex, body: Body, compiled: Libraries.Sentence)
      requires t < |d.sentences| && t !in d.code && n <= |d.early| && Renders(Emit(Since(d, n)), ok, body, compiled)
      ensures Wrote(d, Filled(d, t, compiled))
      ensures Resolves(Emit(Since(Filled(d, t, compiled), n)), ok, Inline(body), t)
    {
      hide Renders;
      SinceWithin(d, Filled(d, t, compiled), n);
      RendersStays(Emit(Since(d, n)), Emit(Since(Filled(d, t, compiled), n)), ok, body, compiled);
    }

    lemma BlockFills(d0: Draft, d1: Draft, d2: Draft, t: SentenceIndex, body: Body, compiled: Libraries.Sentence)
      requires d1 == Pushed(d0, [], false) && t == |d0.sentences| && Fine(d0, err) && t !in d0.code && Grown(d1, d2)
      requires t < |d2.sentences| && t !in d2.code && Adds(nets, ok, d1, d2)
      requires Emit(d2).Within(Emit(Filled(d2, t, compiled)))
      requires Level(nets, body) && Renders(Emit(d2), ok, body, compiled)
      ensures Adds(nets, ok, d0, Filled(d2, t, compiled))
    {
      hide Adds; hide Renders; hide Level; hide Emitted.Within;
      assert IsBlock(nets, ok, d2, compiled);
      AddsFilled(nets, ok, d0, d1, d2, t, compiled);
    }

    /** The four blocks behind a `?`; the failing arm gets its drops when the draft is finished. */
    method CompileTry(tail: Body) returns (insts: Libraries.Sentence)
      requires Valid() && Labelled(tail, named)
      modifies this
      ensures Files() && ProperCode(insts, |sentences|, earlyReturns)
      ensures |old(earlyReturns)| <= |earlyReturns|
      ensures Renders(EmitSince(|old(earlyReturns)|), ok, [Try] + tail, insts) && Records(TailsOf([Try] + tail))
      ensures RecordedLast(View(), ok, tail, currentSentence, insts)
      ensures Level(nets, tail) ==> Adds(nets, ok, old(View()), View())
      decreases tail, 1
    {
      hide Fine; hide Grown; hide Renders; hide ProperCode; hide Callable; hide ExitFiled; hide Adds; hide Level;
      hide TailsFiled; hide TailsOf; hide WithTry; hide Pushed;
      ghost var d0 := View();
      var body := CompileBody(tail);
      ghost var d1 := View();
      var rest, exit := FileTry(body);
      insts := [
        Instruction.Copy, Instruction.Copy, Local(AsTuple(2)), Local(Equal),
        Instruction.Branch(rest + 1, rest + 2), Instruction.Branch(rest, exit.fail)
      ];
      ghost var d6 := View();
      GrowsOn(d0, d1, d6);
      TryBlocks(d1, body, err, ok, exit);
      TryRenders(d1, |d0.early|, ok, err, tail, body, exit, insts);
      SinceRenders(d1, |d0.early|, tail, body);
      RestComesFirst(d1, d6, ok, tail, body, exit, insts);
      GrownWrote(d1, d6);
      TryRecorded(d1, d6, ok, |d0.early|, tail, exit, insts);
      if Level(nets, tail) {
        TryAdds(d1, tail, body, exit);
        AddsOn(nets, ok, d0, d1, d6);
      }
    }

    /** The blocks filed in this order, and the early return recorded. */
    method FileTry(body: Libraries.Sentence) returns (rest: SentenceIndex, exit: EarlyReturn)
      requires Valid() && ProperCode(body, |sentences|, earlyReturns)
      modifies this
      ensures rest == |old(sentences)| && exit == EarlyReturn(rest, rest + 3, currentSentence)
      ensures Files() && View() == WithTry(old(View()), body, err, ok, exit)
    {
      hide Fine; hide Grown; hide ProperCode; hide Callable; hide ExitFiled; hide Adds;
      ghost var d1 := View();
      rest := PushBlock(body, true);
      NoCallees(AnswerCode(ok), View());
      var isOk := PushBlock([Local(Untuple(2)), Local(Push(ok)), Local(Equal)], true);
      NoCallees(NoAnswerCode(), View());
      var notAResult := PushBlock([Local(Push(Bool(false)))], true);
      NoCallees(FailStart(err), View());
      var fail := PushBlock(FailStart(err), false);
      exit := EarlyReturn(rest, fail, currentSentence);
      TryFiled(d1, body, err, ok, exit);
      earlyReturns := earlyReturns + [exit];
    }

    /** Filing a `?` adds a block for the rest and two answers; the room left open is the failing arm's. */
    lemma TryAdds(d: Draft, tail: Body, body: Libraries.Sentence, exit: EarlyReturn)
      requires Fine(d, err) && Level(nets, tail) && Renders(Emit(d), ok, tail, body)
      requires exit.rest == |d.sentences| && exit.fail == |d.sentences| + 3
      requires Grown(d, WithTry(d, body, err, ok, exit))
      ensures Adds(nets, ok, d, WithTry(d, body, err, ok, exit))
    {
      hide Renders; hide Level; hide Grown; hide IsReach; hide IsFrame; hide AllProper; hide ReachesFiled;
      hide FramesFiled; hide ExitsFiled; hide Standing;
      var e := WithTry(d, body, err, ok, exit);
      GrownWithin(d, e);
      RendersStays(Emit(d), Emit(e), ok, tail, body);
      assert IsBlock(nets, ok, e, body);
      assert e.early[|e.early| - 1] == exit && IsFail(e, exit.fail);
      forall t | t in e.code && t !in d.code ensures Piece(nets, ok, e, e.code[t]) {
        assert t == |d.sentences| || e.code[t] == AnswerCode(ok) || e.code[t] == NoAnswerCode();
      }
    }

    /** The instructions in order, up to a `?`, which takes the rest of the body with it. */
    method CompileBody(body: Body) returns (insts: Libraries.Sentence)
      requires Valid() && Labelled(body, named)
      modifies this
      ensures Files() && ProperCode(insts, |sentences|, earlyReturns)
      ensures |old(earlyReturns)| <= |earlyReturns|
      ensures Renders(EmitSince(|old(earlyReturns)|), ok, body, insts) && Records(TailsOf(body))
      ensures Level(nets, body) ==> Adds(nets, ok, old(View()), View())
      decreases body, 0
    {
      hide Fine; hide Grown; hide ProperCode; hide Renders; hide RendersWord; hide Adds; hide TailFiled;
      hide TailsFiled; hide TailsOf; hide LevelWord;
      insts := [];
      ghost var start := View();
      AddsNothing(nets, ok, start, err);
      NothingCompiled(start, ok, currentSentence);
      var i := 0;
      while i < |body|
        invariant 0 <= i <= |body| && Valid() && Grown(start, View()) && currentSentence == old(currentSentence)
        invariant |start.early| <= |earlyReturns| && Straight(body[..i])
        invariant Renders(EmitSince(|start.early|), ok, body[..i], insts)
        invariant TailsFiled(View(), ok, |start.early|, TailsOf(body[..i]), currentSentence)
        invariant ProperCode(insts, |sentences|, earlyReturns)
        invariant Level(nets, body) ==> Adds(nets, ok, start, View())
      {
        ghost var before := View();
        assert WordLabelled(body[i], named) && (Level(nets, body) ==> LevelWord(nets, body[i]));
        if body[i].Try? {
          var rest := CompileTry(body[i + 1..]);
          assert body[i..] == [Try] + body[i + 1..];
          assert body == body[..i] + ([Try] + body[i + 1..]);
          Appended(start, before, View(), ok, body[..i], insts, [Try] + body[i + 1..], rest, currentSentence);
          if Level(nets, body) {
            AddsOn(nets, ok, start, before, View());
          }
          return insts + rest;
        }
        var word := CompileWord(body[i]);
        OneWordCompiled(View(), |before.early|, body[i], word);
        assert body[..i + 1] == body[..i] + [body[i]];
        Appended(start, before, View(), ok, body[..i], insts, [body[i]], word, currentSentence);
        if Level(nets, body) {
          AddsOn(nets, ok, start, before, View());
        }
        insts := insts + word;
        i := i + 1;
      }
      assert body[..i] == body;
    }

    lemma OneWordCompiled(d: Draft, n: nat, word: Word, insts: Libraries.Sentence)
      requires n <= |d.early| && !word.Try? && |insts| == Length(word)
      requires RendersWord(Emit(Since(d, n)), ok, word, insts)
      ensures Renders(Emit(Since(d, n)), ok, [word], insts) && TailsOf([word]) == TailsOfWord(word)
    {
      RendersOne(Emit(Since(d, n)), ok, word, insts);
      assert TailsOf([word]) == TailsOfWord(word) + TailsOf([word][1..]);
    }

    lemma ResolvedStands(d: Draft, target: Target, t: SentenceIndex)
      requires Resolves(Emit(d), ok, target, t) && LevelTarget(nets, target)
      ensures Standing(nets, ok, d, t)
    {
      hide Renders; hide Level;
      if target.Inline? {
        assert Level(nets, target.body) && Renders(Emit(d), ok, target.body, d.code[t]);
      }
    }

    /** One word that is not a `?`. */
    method CompileWord(word: Word) returns (insts: Libraries.Sentence)
      requires Valid() && WordLabelled(word, named) && !word.Try?
      modifies this
      ensures Files() && ProperCode(insts, |sentences|, earlyReturns)
      ensures |insts| == Length(word) && |old(earlyReturns)| <= |earlyReturns|
      ensures RendersWord(EmitSince(|old(earlyReturns)|), ok, word, insts) && Records(TailsOfWord(word))
      ensures LevelWord(nets, word) ==> Adds(nets, ok, old(View()), View())
      decreases word
    {
      hide Fine; hide Grown; hide Renders; hide Resolves; hide Callable; hide ReachCode; hide Adds; hide LevelTarget;
      hide TailsFiled; hide TailsOfTarget;
      ghost var start := View();
      GrownFromItself(start);
      AddsNothing(nets, ok, start, err);
      NoTails(start);
      match word {
        case Plain(prim) => insts := [Local(prim)];
        case Drop(depth) =>
          insts := ReachFor(Discarding, depth);
          NoTails(View());
        case Pick(depth) =>
          insts := ReachFor(Copying, depth);
          NoTails(View());
        case Roll(depth) =>
          insts := ReachFor(Moving, depth);
          NoTails(View());
        case Jump(target) =>
          var t := ResolveTarget(target);
          CallableIsProper(View(), t);
          insts := [Instruction.Jump(t)];
        case Dip(depth, target) => insts := CompileDip(depth, target);
        case Branch(yes, no) => insts := CompileBranch(yes, no);
        case Check(item) =>
          match item {
            case Sentence(s) =>
              SettledIsCallable(start, err, s);
              CallableIsProper(start, s);
              insts := [Instruction.Jump(s)];
            case Const(v) =>
              insts := [Local(Push(v)), Local(Equal)];
          }
      }
    }

    /** The target resolved, then a frame for it. */
    method CompileDip(depth: nat, target: Target) returns (insts: Libraries.Sentence)
      requires Valid() && TargetLabelled(target, named)
      modifies this
      ensures Files() && ProperCode(insts, |sentences|, earlyReturns)
      ensures |insts| == 1 && |old(earlyReturns)| <= |earlyReturns|
      ensures RendersWord(EmitSince(|old(earlyReturns)|), ok, Word.Dip(depth, target), insts)
      ensures Records(TailsOfTarget(target))
      ensures LevelTarget(nets, target) ==> Adds(nets, ok, old(View()), View())
      decreases Word.Dip(depth, target), 0
    {
      hide Fine; hide Grown; hide Renders; hide Resolves; hide Callable; hide ReachCode; hide Adds; hide LevelTarget;
      hide TailsFiled; hide TailsOfTarget;
      ghost var start := View();
      var t := ResolveTarget(target);
      ghost var before := View();
      var inst := FrameFor(depth, t);
      GrowsOn(start, before, View());
      GrownWrote(before, View());
      SinceWithin(before, View(), |start.early|);
      ResolvesStays(Emit(Since(before, |start.early|)), EmitSince(|start.early|), ok, target, t);
      TailsFiledStay(before, View(), ok, |start.early|, TailsOfTarget(target), currentSentence);
      if LevelTarget(nets, target) {
        SinceWider(before, |start.early|, |start.early|);
        ResolvesStays(Emit(Since(before, |start.early|)), Emit(before), ok, target, t);
        ResolvedStands(before, target, t);
        AddsOn(nets, ok, start, before, View());
      }
      insts := [inst];
    }

    /** One arm resolved after the other. */
    method CompileBranch(yes: Target, no: Target) returns (insts: Libraries.Sentence)
      requires Valid() && TargetLabelled(yes, named) && TargetLabelled(no, named)
      modifies this
      ensures Files() && ProperCode(insts, |sentences|, earlyReturns)
      ensures |insts| == 1 && |old(earlyReturns)| <= |earlyReturns|
      ensures RendersWord(EmitSince(|old(earlyReturns)|), ok, Word.Branch(yes, no), insts)
      ensures Records(TailsOfTarget(yes) + TailsOfTarget(no))
      ensures LevelTarget(nets, yes) && LevelTarget(nets, no) ==> Adds(nets, ok, old(View()), View())
      decreases Word.Branch(yes, no), 0
    {
      hide Fine; hide Grown; hide Renders; hide Resolves; hide Callable; hide ReachCode; hide Adds; hide LevelTarget;
      hide TailsFiled; hide TailsOfTarget;
      ghost var start := View();
      var t := ResolveTarget(yes);
      ghost var before := View();
      var f := ResolveTarget(no);
      GrowsOn(start, before, View());
      GrownWrote(before, View());
      SinceWithin(before, View(), |start.early|);
      ResolvesStays(Emit(Since(before, |start.early|)), EmitSince(|start.early|), ok, yes, t);
      SinceWider(View(), |start.early|, |before.early|);
      ResolvesStays(EmitSince(|before.early|), EmitSince(|start.early|), ok, no, f);
      CallableStays(before, View(), t);
      BothCallable(View(), t, f);
      TailsFiledOn(before, View(), ok, |start.early|, TailsOfTarget(yes), TailsOfTarget(no), currentSentence);
      if LevelTarget(nets, yes) && LevelTarget(nets, no) {
        AddsOn(nets, ok, start, before, View());
      }
      insts := [Instruction.Branch(t, f)];
    }
  }

  lemma CallableIsProper(d: Draft, t: SentenceIndex)
    requires Callable(d, t)
    ensures Proper(Instruction.Dip(t), |d.sentences|, d.early) && Proper(Instruction.Jump(t), |d.sentences|, d.early)
  {
  }

  lemma GrownFromItself(d: Draft)
    ensures Grown(d, d)
  {
  }

  lemma NoCallees(insts: Libraries.Sentence, d: Draft)
    requires forall ip | 0 <= ip < |insts| :: insts[ip].Local?
    ensures ProperCode(insts, |d.sentences|, d.early)
  {
  }

  lemma KeptOpen(d: Draft, err: Value)
    requires Fine(d, err)
    ensures |d.sentences| !in d.code && Callable(Pushed(d, [], false), |d.sentences|)
  {
    forall x | x in d.early ensures x.fail != |d.sentences| {
      var i :| 0 <= i < |d.early| && d.early[i] == x;
      assert ExitFiled(d, err, d.early[i]);
    }
  }

  /** The room kept for a block is neither settled nor taken by what was filed since. */
  lemma StillOpen(d0: Draft, d1: Draft, d2: Draft, err: Value, t: SentenceIndex)
    requires d1 == Pushed(d0, [], false) && t == |d0.sentences| && t !in d0.code && Callable(d1, t) && Grown(d1, d2)
    ensures t < |d2.sentences| && t !in d2.code && Callable(d2, t)
  {
    CallableStays(d1, d2, t);
  }

  lemma FilledGrows(d0: Draft, d1: Draft, d2: Draft, t: SentenceIndex, body: Libraries.Sentence)
    requires d1 == Pushed(d0, [], false) && t == |d0.sentences| && t !in d0.code && Grown(d1, d2) && t < |d2.sentences|
    requires t !in d2.code
    ensures Grown(d0, Filled(d2, t, body))
  {
    var d3 := Filled(d2, t, body);
    assert d1.sentences[..t] == d0.sentences && d2.sentences[..t] == d1.sentences[..t];
    assert d3.sentences[..t] == d2.sentences[..t];
  }

  // ---- a `?`, filed ----

  function AnswerCode(ok: Value): Libraries.Sentence {
    [Local(Untuple(2)), Local(Push(ok)), Local(Equal)]
  }

  function NoAnswerCode(): Libraries.Sentence {
    [Local(Push(Bool(false)))]
  }

  /** The draft once the four blocks of a `?` are filed and the early return is recorded. */
  function WithTry(d: Draft, body: Libraries.Sentence, err: Value, ok: Value, exit: EarlyReturn): Draft {
    var d3 := Pushed(Pushed(d, body, true), AnswerCode(ok), true);
    var d5 := Pushed(Pushed(d3, NoAnswerCode(), true), FailStart(err), false);
    d5.(early := d5.early + [exit])
  }

  lemma TryFiled(d: Draft, body: Libraries.Sentence, err: Value, ok: Value, exit: EarlyReturn)
    requires Fine(d, err) && ProperCode(body, |d.sentences|, d.early)
    requires exit.rest == |d.sentences| && exit.fail == |d.sentences| + 3
    ensures Fine(WithTry(d, body, err, ok, exit), err) && Grown(d, WithTry(d, body, err, ok, exit))
  {
    hide Fine; hide ProperCode; hide Grown;
    var d2 := Pushed(d, body, true);
    PushedIsFine(d, err, body, true);
    NoCallees(AnswerCode(ok), d2);
    PushedIsFine(d2, err, AnswerCode(ok), true);
    var d3 := Pushed(d2, AnswerCode(ok), true);
    NoCallees(NoAnswerCode(), d3);
    PushedIsFine(d3, err, NoAnswerCode(), true);
    var d4 := Pushed(d3, NoAnswerCode(), true);
    NoCallees(FailStart(err), d4);
    PushedIsFine(d4, err, FailStart(err), false);
    var d5 := Pushed(d4, FailStart(err), false);
    GrowsOn(d, d2, d3);
    GrowsOn(d, d3, d4);
    GrowsOn(d, d4, d5);
    NobodyCallsTheLast(d4, err, FailStart(err));
    NewerThanSettled(d, err);
    ExitRecorded(d5, err, exit);
    OneMoreExit(d, d5, exit);
  }

  lemma NewerThanSettled(d: Draft, err: Value)
    requires Fine(d, err)
    ensures d.named <= |d.sentences| && forall t | t in d.code :: t < |d.sentences|
  {
  }

  lemma OneMoreExit(d: Draft, e: Draft, exit: EarlyReturn)
    requires Grown(d, e) && e.early == d.early && exit.fail >= |d.sentences|
    ensures Grown(d, e.(early := e.early + [exit]))
  {
  }

  lemma NobodyCallsTheLast(d: Draft, err: Value, body: Libraries.Sentence)
    requires Fine(d, err) && (forall ip | 0 <= ip < |body| :: body[ip].Local?)
    ensures var e := Pushed(d, body, false);
      && (forall s, ip | 0 <= s < |e.sentences| && 0 <= ip < |e.sentences[s]| ::
        |d.sentences| !in e.sentences[s][ip].Callees())
      && (forall y | y in e.early :: y.fail != |d.sentences|)
  {
    var e := Pushed(d, body, false);
    forall s, ip | 0 <= s < |e.sentences| && 0 <= ip < |e.sentences[s]|
      ensures |d.sentences| !in e.sentences[s][ip].Callees()
    {
      if s < |d.sentences| {
        assert ProperCode(d.sentences[s], |d.sentences|, d.early);
        assert Proper(d.sentences[s][ip], |d.sentences|, d.early);
      }
    }
    KeptOpen(d, err);
  }

  lemma TryRenders(
    d: Draft, n: nat, ok: Value, err: Value, tail: Body, body: Libraries.Sentence, exit: EarlyReturn,
      insts: Libraries.Sentence)
    requires n <= |d.early| && Renders(Emit(Since(d, n)), ok, tail, body)
    requires exit.rest == |d.sentences| && exit.fail == |d.sentences| + 3
    requires Fine(WithTry(d, body, err, ok, exit), err) && Grown(d, WithTry(d, body, err, ok, exit))
    requires insts == [
      Instruction.Copy, Instruction.Copy, Local(AsTuple(2)), Local(Equal),
      Instruction.Branch(exit.rest + 1, exit.rest + 2), Instruction.Branch(exit.rest, exit.fail)]
    ensures var later := WithTry(d, body, err, ok, exit);
      && ProperCode(insts, |later.sentences|, later.early) && n <= |later.early|
      && Renders(Emit(Since(later, n)), ok, [Try] + tail, insts)
  {
    var later := WithTry(d, body, err, ok, exit);
    TryBlocks(d, body, err, ok, exit);
    hide WithTry; hide Fine; hide Grown; hide Renders;
    GrownWrote(d, later);
    SinceWithin(d, later, n);
    RendersStays(Emit(Since(d, n)), Emit(Since(later, n)), ok, tail, body);
    assert later.early[n..][|later.early[n..]| - 1] == exit;
    TryShape(Emit(Since(later, n)), ok, tail, insts);
    OwnExit(d, later, err, exit);
    TryIsProper(later, err, exit, insts);
  }

  /**
   * The early return just recorded is this `?`'s, its arms are the ones branched to, and its rest arm was
   * compiled with no early returns but those recorded before it.
   */
  ghost predicate RecordedLast(d: Draft, ok: Value, tail: Body, inSentence: string, insts: Libraries.Sentence) {
    && d.early != [] && |insts| == 6
    && var (last, exit) := (|d.early| - 1, d.early[|d.early| - 1]);
      && exit.inSentence == inSentence && insts[5] == Instruction.Branch(exit.rest, exit.fail)
      && exit.rest in d.code && Renders(Emit(UpTo(d, last)), ok, tail, d.code[exit.rest])
  }

  lemma RestComesFirst(
    d: Draft, later: Draft, ok: Value, tail: Body, body: Libraries.Sentence, exit: EarlyReturn,
      insts: Libraries.Sentence)
    requires Renders(Emit(d), ok, tail, body) && Grown(d, later) && later.early == d.early + [exit]
    requires exit.rest in later.code && later.code[exit.rest] == body
    requires |insts| == 6 && insts[5] == Instruction.Branch(exit.rest, exit.fail)
    ensures RecordedLast(later, ok, tail, exit.inSentence, insts)
  {
    hide Renders;
    assert later.early[..|d.early|] == d.early;
    var before := UpTo(later, |d.early|);
    assert Emit(d).Within(Emit(before));
    RendersStays(Emit(d), Emit(before), ok, tail, body);
  }

  /** The tails of what follows a `?`, and then what follows it. */
  lemma TryRecorded(
    d: Draft, later: Draft, ok: Value, n: nat, tail: Body, exit: EarlyReturn, insts: Libraries.Sentence)
    requires Wrote(d, later) && later.early == d.early + [exit]
    requires TailsFiled(d, ok, n, TailsOf(tail), exit.inSentence)
    requires RecordedLast(later, ok, tail, exit.inSentence, insts)
    ensures TailsFiled(later, ok, n, TailsOf([Try] + tail), exit.inSentence)
  {
    hide Renders;
    assert TailFiled(later, ok, |d.early|, [tail][0], exit.inSentence);
    assert TailsFiled(later, ok, |d.early|, [tail], exit.inSentence);
    TailsFiledOn(d, later, ok, n, TailsOf(tail), [tail], exit.inSentence);
    assert ([Try] + tail)[1..] == tail;
  }

  lemma TryShape(e: Emitted, ok: Value, tail: Body, insts: Libraries.Sentence)
    requires AsksForAResult(e, ok, insts) && Renders(e, ok, tail, e.code[insts[5].ifTrue])
    ensures Renders(e, ok, [Try] + tail, insts)
  {
    assert ([Try] + tail)[1..] == tail;
  }

  /** Where the blocks of a `?` went. */
  lemma TryBlocks(d: Draft, body: Libraries.Sentence, err: Value, ok: Value, exit: EarlyReturn)
    ensures var later := WithTry(d, body, err, ok, exit);
      && |d.sentences| in later.code && later.code[|d.sentences|] == body
      && |d.sentences| + 1 in later.code && later.code[|d.sentences| + 1] == AnswerCode(ok)
      && |d.sentences| + 2 in later.code && later.code[|d.sentences| + 2] == NoAnswerCode()
      && |later.sentences| == |d.sentences| + 4 && later.early == d.early + [exit]
  {
  }

  lemma TryIsProper(d: Draft, err: Value, exit: EarlyReturn, insts: Libraries.Sentence)
    requires Fine(d, err) && exit.rest in d.code && exit.rest + 1 in d.code && exit.rest + 2 in d.code
    requires exit.fail < |d.sentences| && forall y | y in d.early && y.fail == exit.fail :: y == exit
    requires insts == [
      Instruction.Copy, Instruction.Copy, Local(AsTuple(2)), Local(Equal),
      Instruction.Branch(exit.rest + 1, exit.rest + 2), Instruction.Branch(exit.rest, exit.fail)]
    ensures ProperCode(insts, |d.sentences|, d.early)
  {
    SettledIsCallable(d, err, exit.rest);
    SettledIsCallable(d, err, exit.rest + 1);
    SettledIsCallable(d, err, exit.rest + 2);
    hide Fine;
    BothCallable(d, exit.rest + 1, exit.rest + 2);
    assert Proper(Instruction.Branch(exit.rest, exit.fail), |d.sentences|, d.early);
  }

  lemma OwnExit(d: Draft, later: Draft, err: Value, exit: EarlyReturn)
    requires Fine(later, err) && Grown(d, later) && exit in later.early && exit.fail >= |d.sentences|
    ensures forall y | y in later.early && y.fail == exit.fail :: y == exit
  {
    forall y | y in later.early && y.fail == exit.fail ensures y == exit {
      var i :| 0 <= i < |later.early| && later.early[i] == y;
      var j :| 0 <= j < |later.early| && later.early[j] == exit;
      assert i == j;
    }
  }

  lemma BothCallable(d: Draft, t: SentenceIndex, f: SentenceIndex)
    requires Callable(d, t) && Callable(d, f)
    ensures Proper(Instruction.Branch(t, f), |d.sentences|, d.early)
  {
  }

  lemma NothingCompiled(d: Draft, ok: Value, inSentence: string)
    ensures Grown(d, d) && Renders(Emit(Since(d, |d.early|)), ok, [], []) && ProperCode([], |d.sentences|, d.early)
    ensures TailsFiled(d, ok, |d.early|, TailsOf([]), inSentence)
  {
  }

  /** Code for what follows, after code that was already there. */
  lemma Appended(
    start: Draft, before: Draft, after: Draft, ok: Value, a: Body, x: Libraries.Sentence, b: Body,
      y: Libraries.Sentence, inSentence: string)
    requires Grown(start, before) && Grown(before, after) && |start.early| <= |before.early| <= |after.early|
    requires Straight(a) && Renders(Emit(Since(before, |start.early|)), ok, a, x)
    requires ProperCode(x, |before.sentences|, before.early)
    requires Renders(Emit(Since(after, |before.early|)), ok, b, y) && ProperCode(y, |after.sentences|, after.early)
    requires TailsFiled(before, ok, |start.early|, TailsOf(a), inSentence)
    requires TailsFiled(after, ok, |before.early|, TailsOf(b), inSentence)
    ensures Grown(start, after) && Renders(Emit(Since(after, |start.early|)), ok, a + b, x + y)
    ensures TailsFiled(after, ok, |start.early|, TailsOf(a + b), inSentence)
    ensures ProperCode(x + y, |after.sentences|, after.early)
  {
    hide Grown; hide Renders; hide Proper; hide TailsFiled; hide TailsOf;
    var n := |start.early|;
    GrowsOn(start, before, after);
    GrownWrote(before, after);
    SinceWithin(before, after, n);
    SinceWider(after, n, |before.early|);
    RendersStays(Emit(Since(before, n)), Emit(Since(after, n)), ok, a, x);
    RendersStays(Emit(Since(after, |before.early|)), Emit(Since(after, n)), ok, b, y);
    RendersJoins(Emit(Since(after, n)), ok, a, b, x, y);
    ProperStays(before, after, x);
    TailsJoin(a, b);
    TailsFiledOn(before, after, ok, n, TailsOf(a), TailsOf(b), inSentence);
  }
}
