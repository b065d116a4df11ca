/** What a compiler has filed so far, and what filing more of it keeps. */
module Drafts {
  import opened Values
  import opened Prims
  import opened Terms
  import opened Libraries
  import opened Surface
  import opened Emitting
  import opened Expansions

  /** The two arms a `?` left behind, and the sentence it was written in. */
  datatype EarlyReturn = EarlyReturn(rest: SentenceIndex, fail: SentenceIndex, inSentence: string)

  /** The sentences of a program being compiled, those already settled, and the two tables of shared blocks. */
  datatype Draft = Draft(
    named: nat, sentences: seq<Libraries.Sentence>, names: seq<string>, annotations: seq<seq<Arity>>,
    early: seq<EarlyReturn>, code: Code,
    reaches: map<(Reach, nat), SentenceIndex>, frames: map<(nat, SentenceIndex), SentenceIndex>)

  ghost function Emit(d: Draft): Emitted {
    Emitted(d.named, d.code, set x: EarlyReturn | x in d.early :: (x.rest, x.fail))
  }

  /** The draft as if only these early returns had been recorded. */
  function Span(d: Draft, lo: nat, hi: nat): Draft
    requires lo <= hi <= |d.early|
  {
    d.(early := d.early[lo..hi])
  }

  /** The draft as if only the early returns from the `n`th on had been recorded. */
  function Since(d: Draft, n: nat): Draft
    requires n <= |d.early|
  {
    d.(early := d.early[n..])
  }

  /** The draft as if only the first `n` early returns had been recorded. */
  function UpTo(d: Draft, n: nat): Draft
    requires n <= |d.early|
  {
    d.(early := d.early[..n])
  }

  // ---- what holds of a draft ----

  ghost predicate CodeSettled(d: Draft) {
    && |d.names| == |d.annotations| == |d.sentences| && d.named <= |d.sentences|
    && forall t | t in d.code :: t < |d.sentences| && d.sentences[t] == d.code[t]
  }

  ghost predicate ReachesFiled(d: Draft) {
    forall key | key in d.reaches :: ReachFiled(d, key.0, key.1, d.reaches[key])
  }

  ghost predicate ReachFiled(d: Draft, kind: Reach, depth: nat, t: SentenceIndex) {
    t in d.code && ReachCode(d.code, kind, depth, d.code[t])
  }

  ghost predicate FramesFiled(d: Draft) {
    forall key | key in d.frames :: FrameFiled(d, key.0, key.1, d.frames[key])
  }

  ghost predicate FrameFiled(d: Draft, depth: nat, target: SentenceIndex, t: SentenceIndex) {
    depth > 1 && t in d.code && |d.code[t]| == 1 && Framed(d.code, depth - 1, target, d.code[t][0])
  }

  function FailStart(err: Value): Libraries.Sentence {
    [Local(Push(err)), Local(Prim.Tuple(2))]
  }

  /** An early return's failing arm is unfinished, is nobody else's, and was filed for this. */
  ghost predicate ExitFiled(d: Draft, err: Value, x: EarlyReturn) {
    && x.rest in d.code && d.named <= x.fail < |d.sentences| && x.fail !in d.code
    && d.sentences[x.fail] == FailStart(err)
  }

  ghost predicate ExitsFiled(d: Draft, err: Value) {
    && (forall i | 0 <= i < |d.early| :: ExitFiled(d, err, d.early[i]))
    && (forall i, j | 0 <= i < j < |d.early| :: d.early[i].fail != d.early[j].fail)
  }

  /** Names only what exists, and a failing arm only as the other arm of its own rest. */
  ghost predicate Proper(inst: Instruction, size: nat, early: seq<EarlyReturn>) {
    forall t | t in inst.Callees() ::
      t < size && forall x | x in early :: t == x.fail ==> inst == Instruction.Branch(x.rest, x.fail)
  }

  ghost predicate ProperCode(insts: Libraries.Sentence, size: nat, early: seq<EarlyReturn>) {
    forall ip | 0 <= ip < |insts| :: Proper(insts[ip], size, early)
  }

  ghost predicate AllProper(sentences: seq<Libraries.Sentence>, early: seq<EarlyReturn>) {
    forall s | 0 <= s < |sentences| :: ProperCode(sentences[s], |sentences|, early)
  }

  ghost predicate Fine(d: Draft, err: Value) {
    CodeSettled(d) && ReachesFiled(d) && FramesFiled(d) && ExitsFiled(d, err) && AllProper(d.sentences, d.early)
  }

  /** Not some early return's failing arm. */
  ghost predicate Callable(d: Draft, t: SentenceIndex) {
    t < |d.sentences| && forall x | x in d.early :: t != x.fail
  }

  // ---- what filing more keeps ----

  ghost predicate Grown(a: Draft, b: Draft) {
    && a.named == b.named
    && a.sentences <= b.sentences && a.names <= b.names && a.annotations <= b.annotations && a.early <= b.early
    && (forall t | t in a.code :: t in b.code && b.code[t] == a.code[t])
    && (forall t | t in b.code :: t in a.code || t >= |a.sentences|)
    && (forall i | |a.early| <= i < |b.early| :: b.early[i].fail >= |a.sentences|)
    && (forall key | key in a.reaches :: key in b.reaches && b.reaches[key] == a.reaches[key])
    && (forall key | key in a.frames :: key in b.frames && b.frames[key] == a.frames[key])
  }

  lemma GrowsOn(a: Draft, b: Draft, c: Draft)
    requires Grown(a, b) && Grown(b, c)
    ensures Grown(a, c)
  {
    forall i | |a.early| <= i < |c.early| ensures c.early[i].fail >= |a.sentences| {
      if i < |b.early| {
        assert c.early[i] == b.early[i];
      }
    }
  }

  lemma GrownWithin(a: Draft, b: Draft)
    requires Grown(a, b)
    ensures Emit(a).Within(Emit(b))
  {
    forall x: EarlyReturn | x in a.early ensures x in b.early {
      var i :| 0 <= i < |a.early| && a.early[i] == x;
      assert b.early[i] == x;
    }
  }

  /** Nothing written, settled or recorded in `a` is otherwise in `b`. */
  ghost predicate Wrote(a: Draft, b: Draft) {
    && a.named == b.named && a.early <= b.early
    && forall t | t in a.code :: t in b.code && b.code[t] == a.code[t]
  }

  lemma GrownWrote(a: Draft, b: Draft)
    requires Grown(a, b)
    ensures Wrote(a, b) && |a.early| <= |b.early|
  {
  }

  lemma SinceWithin(a: Draft, b: Draft, n: nat)
    requires Wrote(a, b) && n <= |a.early|
    ensures Emit(Since(a, n)).Within(Emit(Since(b, n)))
  {
    forall x: EarlyReturn | x in a.early[n..] ensures x in b.early[n..] {
      var i :| 0 <= i < |a.early[n..]| && a.early[n..][i] == x;
      assert b.early[n..][i] == x;
    }
  }

  lemma SinceWider(d: Draft, n: nat, m: nat)
    requires n <= m <= |d.early|
    ensures Emit(Since(d, m)).Within(Emit(Since(d, n))) && Emit(Since(d, n)).Within(Emit(d))
  {
    forall x: EarlyReturn | x in d.early[m..] ensures x in d.early[n..] {
      var i :| 0 <= i < |d.early[m..]| && d.early[m..][i] == x;
      assert d.early[n..][i + (m - n)] == x;
    }
    forall x: EarlyReturn | x in d.early[n..] ensures x in d.early {
    }
  }

  lemma UpToStays(a: Draft, b: Draft, n: nat)
    requires Wrote(a, b) && n <= |a.early|
    ensures n <= |b.early| && Emit(UpTo(a, n)).Within(Emit(UpTo(b, n)))
  {
    assert a.early[..n] == b.early[..n];
  }

  // ---- which early return is whose ----

  /** The early return at `i` is for a `?` in this sentence, and `tail`, all that follows, is its rest arm. */
  ghost predicate TailFiled(d: Draft, ok: Value, i: nat, tail: Body, inSentence: string) {
    && i < |d.early| && d.early[i].inSentence == inSentence && d.early[i].rest in d.code
    && Renders(Emit(UpTo(d, i)), ok, tail, d.code[d.early[i].rest])
  }

  /** From the `n`th early return to the last there is one for each of these tails, in order. */
  ghost predicate TailsFiled(d: Draft, ok: Value, n: nat, tails: seq<Body>, inSentence: string) {
    |d.early| == n + |tails| && forall k: nat | k < |tails| :: TailFiled(d, ok, n + k, tails[k], inSentence)
  }

  lemma TailFiledStays(a: Draft, b: Draft, ok: Value, i: nat, tail: Body, inSentence: string)
    requires Wrote(a, b) && TailFiled(a, ok, i, tail, inSentence)
    ensures TailFiled(b, ok, i, tail, inSentence)
  {
    hide Renders;
    UpToStays(a, b, i);
    RendersStays(Emit(UpTo(a, i)), Emit(UpTo(b, i)), ok, tail, a.code[a.early[i].rest]);
  }

  /** Tails filed after others were. */
  lemma TailsFiledOn(a: Draft, b: Draft, ok: Value, n: nat, x: seq<Body>, y: seq<Body>, inSentence: string)
    requires Wrote(a, b) && TailsFiled(a, ok, n, x, inSentence) && TailsFiled(b, ok, |a.early|, y, inSentence)
    ensures TailsFiled(b, ok, n, x + y, inSentence)
  {
    hide TailFiled;
    forall k: nat | k < |x + y| ensures TailFiled(b, ok, n + k, (x + y)[k], inSentence) {
      if k < |x| {
        TailFiledStays(a, b, ok, n + k, x[k], inSentence);
      } else {
        assert TailFiled(b, ok, |a.early| + (k - |x|), y[k - |x|], inSentence);
      }
    }
  }

  lemma SettledIsCallable(d: Draft, err: Value, t: SentenceIndex)
    requires Fine(d, err) && (t in d.code || t < d.named)
    ensures Callable(d, t)
  {
    forall x | x in d.early ensures t != x.fail {
      var i :| 0 <= i < |d.early| && d.early[i] == x;
      assert ExitFiled(d, err, d.early[i]);
    }
  }

  lemma CallableStays(a: Draft, b: Draft, t: SentenceIndex)
    requires Grown(a, b) && Callable(a, t)
    ensures Callable(b, t)
  {
    forall x | x in b.early ensures t != x.fail {
      var i :| 0 <= i < |b.early| && b.early[i] == x;
      if i < |a.early| {
        assert a.early[i] == x;
      }
    }
  }

  lemma ProperStays(a: Draft, b: Draft, insts: Libraries.Sentence)
    requires Grown(a, b) && ProperCode(insts, |a.sentences|, a.early)
    ensures ProperCode(insts, |b.sentences|, b.early)
  {
    forall ip | 0 <= ip < |insts| ensures Proper(insts[ip], |b.sentences|, b.early) {
      assert Proper(insts[ip], |a.sentences|, a.early);
      forall t, x | t in insts[ip].Callees() && x in b.early && t == x.fail
        ensures insts[ip] == Instruction.Branch(x.rest, x.fail)
      {
        var i :| 0 <= i < |b.early| && b.early[i] == x;
        assert i < |a.early| && a.early[i] == x;
      }
    }
  }

  /** With nothing recorded since, the tails filed are still all. */
  lemma TailsFiledStay(a: Draft, b: Draft, ok: Value, n: nat, tails: seq<Body>, inSentence: string)
    requires Wrote(a, b) && b.early == a.early && TailsFiled(a, ok, n, tails, inSentence)
    ensures TailsFiled(b, ok, n, tails, inSentence)
  {
    hide TailFiled;
    forall k: nat | k < |tails| ensures TailFiled(b, ok, n + k, tails[k], inSentence) {
      TailFiledStays(a, b, ok, n + k, tails[k], inSentence);
    }
  }

  // ---- what every block is there for ----

  /** The two answers of a `?` to whether it was given a result call nothing. */
  predicate IsLocal(insts: Libraries.Sentence) {
    forall ip | 0 <= ip < |insts| :: insts[ip].Local?
  }

  ghost predicate IsReach(d: Draft, insts: Libraries.Sentence) {
    exists kind, depth :: ReachCode(d.code, kind, depth, insts)
  }

  ghost predicate IsBlock(nets: seq<int>, ok: Value, d: Draft, insts: Libraries.Sentence) {
    exists body :: Level(nets, body) && Renders(Emit(d), ok, body, insts)
  }

  /** A named sentence, or a block filed for a body. */
  ghost predicate Standing(nets: seq<int>, ok: Value, d: Draft, t: SentenceIndex) {
    t < d.named || (t in d.code && IsBlock(nets, ok, d, d.code[t]))
  }

  ghost predicate IsFrame(nets: seq<int>, ok: Value, d: Draft, insts: Libraries.Sentence) {
    |insts| == 1 && exists depth: nat, target ::
      Framed(d.code, depth, target, insts[0]) && Standing(nets, ok, d, target)
  }

  /** A block is there for a movement, for a frame, for a body, or to answer a `?`. */
  ghost predicate Piece(nets: seq<int>, ok: Value, d: Draft, insts: Libraries.Sentence) {
    IsReach(d, insts) || IsFrame(nets, ok, d, insts) || IsBlock(nets, ok, d, insts) || IsLocal(insts)
  }

  ghost predicate IsFail(d: Draft, t: SentenceIndex) {
    exists i: nat :: i < |d.early| && d.early[i].fail == t
  }

  /** From `a` to `b` only such blocks were added, without annotations, each settled but the failing arms. */
  ghost predicate Adds(nets: seq<int>, ok: Value, a: Draft, b: Draft) {
    && |b.annotations| == |b.sentences|
    && (forall t: nat | t < |b.sentences| && t !in b.code :: IsFail(b, t) || (t < |a.sentences| && t !in a.code))
    && (forall t | t in b.code && t !in a.code :: Piece(nets, ok, b, b.code[t]))
    && (forall t | |a.sentences| <= t < |b.annotations| :: b.annotations[t] == [])
  }

  lemma BlockStays(nets: seq<int>, ok: Value, a: Draft, b: Draft, insts: Libraries.Sentence)
    requires Emit(a).Within(Emit(b)) && IsBlock(nets, ok, a, insts)
    ensures IsBlock(nets, ok, b, insts)
  {
    hide Renders; hide Level; hide Emitted.Within;
    var body :| Level(nets, body) && Renders(Emit(a), ok, body, insts);
    RendersStays(Emit(a), Emit(b), ok, body, insts);
  }

  lemma StandingStays(nets: seq<int>, ok: Value, a: Draft, b: Draft, t: SentenceIndex)
    requires Emit(a).Within(Emit(b)) && Standing(nets, ok, a, t)
    ensures Standing(nets, ok, b, t)
  {
    hide IsBlock;
    if t >= a.named {
      BlockStays(nets, ok, a, b, a.code[t]);
    }
  }

  lemma PieceStays(nets: seq<int>, ok: Value, a: Draft, b: Draft, insts: Libraries.Sentence)
    requires Emit(a).Within(Emit(b)) && Piece(nets, ok, a, insts)
    ensures Piece(nets, ok, b, insts)
  {
    hide Standing; hide IsBlock;
    if IsReach(a, insts) {
      var kind, depth :| ReachCode(a.code, kind, depth, insts);
      ReachCodeStays(Emit(a), Emit(b), kind, depth, insts);
    } else if IsFrame(nets, ok, a, insts) {
      var depth, target :| Framed(a.code, depth, target, insts[0]) && Standing(nets, ok, a, target);
      FramedStays(Emit(a), Emit(b), depth, target, insts[0]);
      StandingStays(nets, ok, a, b, target);
    } else if IsBlock(nets, ok, a, insts) {
      BlockStays(nets, ok, a, b, insts);
    }
  }

  lemma AddsNothing(nets: seq<int>, ok: Value, d: Draft, err: Value)
    requires Fine(d, err)
    ensures Adds(nets, ok, d, d)
  {
  }

  lemma AddsOn(nets: seq<int>, ok: Value, a: Draft, b: Draft, c: Draft)
    requires Grown(b, c) && Adds(nets, ok, a, b) && Adds(nets, ok, b, c)
    ensures Adds(nets, ok, a, c)
  {
    GrownWithin(b, c);
    forall t | t in c.code && t !in a.code ensures Piece(nets, ok, c, c.code[t]) {
      if t in b.code {
        PieceStays(nets, ok, b, c, b.code[t]);
      }
    }
  }

  /** One block added and settled. */
  lemma AddsBlock(nets: seq<int>, ok: Value, d: Draft, err: Value, body: Libraries.Sentence)
    requires Fine(d, err) && Piece(nets, ok, d, body) && Grown(d, Pushed(d, body, true))
    ensures Adds(nets, ok, d, Pushed(d, body, true))
  {
    hide Piece; hide AllProper; hide ReachesFiled; hide FramesFiled; hide ExitsFiled;
    var e := Pushed(d, body, true);
    GrownWithin(d, e);
    PieceStays(nets, ok, d, e, body);
  }

  /** Sharing a block adds none. */
  lemma AddsAShare(nets: seq<int>, ok: Value, d: Draft, err: Value, e: Draft)
    requires Fine(d, err) && e == d.(reaches := e.reaches, frames := e.frames)
    ensures Adds(nets, ok, d, e)
  {
  }

  /** Room kept for a block, what the block needs added, and the block filed in its room. */
  lemma AddsFilled(
    nets: seq<int>, ok: Value, d0: Draft, d1: Draft, d2: Draft, t: SentenceIndex, body: Libraries.Sentence)
    requires d1 == Pushed(d0, [], false) && t == |d0.sentences| && t !in d0.code && |d0.annotations| == |d0.sentences|
    requires t < |d2.sentences| && t !in d2.code && Adds(nets, ok, d1, d2) && Emit(d2).Within(Emit(Filled(d2, t, body)))
    requires d1.annotations <= d2.annotations && Piece(nets, ok, d2, body)
    ensures Adds(nets, ok, d0, Filled(d2, t, body))
  {
    hide Piece; hide Emitted.Within;
    var d3 := Filled(d2, t, body);
    forall u | u in d3.code && u !in d0.code ensures Piece(nets, ok, d3, d3.code[u]) {
      PieceStays(nets, ok, d2, d3, d3.code[u]);
    }
    assert d2.annotations[t] == d1.annotations[t] == [];
  }

  // ---- filing a block ----

  /** A block added at the end; settled at once, unless it is an early return's failing arm. */
  function Pushed(d: Draft, body: Libraries.Sentence, settled: bool): Draft {
    d.(sentences := d.sentences + [body], names := d.names + [INLINE_BLOCK], annotations := d.annotations + [[]],
       code := if settled then d.code[|d.sentences| := body] else d.code)
  }

  lemma FiledStays(a: Draft, b: Draft)
    requires Grown(a, b) && ReachesFiled(a) && FramesFiled(a) && b.reaches == a.reaches && b.frames == a.frames
    ensures ReachesFiled(b) && FramesFiled(b)
  {
    GrownWithin(a, b);
    forall key | key in b.reaches ensures ReachFiled(b, key.0, key.1, b.reaches[key]) {
      assert ReachFiled(a, key.0, key.1, a.reaches[key]);
      ReachCodeStays(Emit(a), Emit(b), key.0, key.1, a.code[a.reaches[key]]);
    }
    forall key | key in b.frames ensures FrameFiled(b, key.0, key.1, b.frames[key]) {
      assert FrameFiled(a, key.0, key.1, a.frames[key]);
      FramedStays(Emit(a), Emit(b), key.0 - 1, key.1, a.code[a.frames[key]][0]);
    }
  }

  lemma ExitsStay(a: Draft, b: Draft, err: Value)
    requires Grown(a, b) && ExitsFiled(a, err) && b.early == a.early
    ensures ExitsFiled(b, err)
  {
    forall i | 0 <= i < |b.early| ensures ExitFiled(b, err, b.early[i]) {
      assert ExitFiled(a, err, a.early[i]);
    }
  }

  lemma ProperPushed(d: Draft, body: Libraries.Sentence, settled: bool)
    requires AllProper(d.sentences, d.early) && ProperCode(body, |d.sentences|, d.early)
    requires Grown(d, Pushed(d, body, settled))
    ensures AllProper(d.sentences + [body], d.early)
  {
    forall s | 0 <= s < |d.sentences + [body]|
      ensures ProperCode((d.sentences + [body])[s], |d.sentences + [body]|, d.early)
    {
      ProperStays(d, Pushed(d, body, settled), (d.sentences + [body])[s]);
    }
  }

  lemma PushedIsFine(d: Draft, err: Value, body: Libraries.Sentence, settled: bool)
    requires Fine(d, err) && ProperCode(body, |d.sentences|, d.early)
    ensures Fine(Pushed(d, body, settled), err) && Grown(d, Pushed(d, body, settled))
  {
    hide AllProper; hide ReachesFiled; hide FramesFiled; hide ExitsFiled; hide ProperCode;
    var e := Pushed(d, body, settled);
    assert |d.sentences| !in d.code;
    assert Grown(d, e);
    FiledStays(d, e);
    ExitsStay(d, e, err);
    ProperPushed(d, body, settled);
  }

  /** A settled block may be filed as the shared one for a movement, or for a frame. */
  lemma SharedReach(d: Draft, err: Value, kind: Reach, depth: nat, t: SentenceIndex)
    requires Fine(d, err) && ReachFiled(d, kind, depth, t) && (kind, depth) !in d.reaches
    ensures Fine(d.(reaches := d.reaches[(kind, depth) := t]), err)
    ensures Grown(d, d.(reaches := d.reaches[(kind, depth) := t]))
  {
    hide AllProper; hide ExitsFiled; hide ReachCode; hide Framed;
    var e := d.(reaches := d.reaches[(kind, depth) := t]);
    forall key | key in e.reaches ensures ReachFiled(e, key.0, key.1, e.reaches[key]) {
      if key != (kind, depth) {
        assert ReachFiled(d, key.0, key.1, d.reaches[key]);
      }
    }
    forall key | key in e.frames ensures FrameFiled(e, key.0, key.1, e.frames[key]) {
      assert FrameFiled(d, key.0, key.1, d.frames[key]);
    }
    ExitsStay(d, e, err);
  }

  lemma SharedFrame(d: Draft, err: Value, depth: nat, target: SentenceIndex, t: SentenceIndex)
    requires Fine(d, err) && FrameFiled(d, depth, target, t) && (depth, target) !in d.frames
    ensures Fine(d.(frames := d.frames[(depth, target) := t]), err)
    ensures Grown(d, d.(frames := d.frames[(depth, target) := t]))
  {
    hide AllProper; hide ExitsFiled; hide ReachCode; hide Framed;
    var e := d.(frames := d.frames[(depth, target) := t]);
    forall key | key in e.frames ensures FrameFiled(e, key.0, key.1, e.frames[key]) {
      if key != (depth, target) {
        assert FrameFiled(d, key.0, key.1, d.frames[key]);
      }
    }
    forall key | key in e.reaches ensures ReachFiled(e, key.0, key.1, e.reaches[key]) {
      assert ReachFiled(d, key.0, key.1, d.reaches[key]);
    }
    ExitsStay(d, e, err);
  }

  // ---- filling a place left open ----

  function Filled(d: Draft, s: SentenceIndex, body: Libraries.Sentence): Draft
    requires s < |d.sentences|
  {
    d.(sentences := d.sentences[s := body], code := d.code[s := body])
  }

  lemma FilledIsFine(d: Draft, err: Value, s: SentenceIndex, body: Libraries.Sentence)
    requires Fine(d, err) && s < |d.sentences| && s !in d.code && Callable(d, s)
    requires ProperCode(body, |d.sentences|, d.early)
    ensures Fine(Filled(d, s, body), err) && Emit(d).Within(Emit(Filled(d, s, body)))
  {
    hide AllProper; hide ProperCode;
    var e := Filled(d, s, body);
    assert Emit(d).Within(Emit(e));
    forall key | key in e.reaches ensures ReachFiled(e, key.0, key.1, e.reaches[key]) {
      assert ReachFiled(d, key.0, key.1, d.reaches[key]);
      ReachCodeStays(Emit(d), Emit(e), key.0, key.1, d.code[d.reaches[key]]);
    }
    forall key | key in e.frames ensures FrameFiled(e, key.0, key.1, e.frames[key]) {
      assert FrameFiled(d, key.0, key.1, d.frames[key]);
      FramedStays(Emit(d), Emit(e), key.0 - 1, key.1, d.code[d.frames[key]][0]);
    }
    forall i | 0 <= i < |e.early| ensures ExitFiled(e, err, e.early[i]) {
      assert ExitFiled(d, err, d.early[i]);
    }
    ProperFilled(d, s, body);
  }

  lemma ProperFilled(d: Draft, s: SentenceIndex, body: Libraries.Sentence)
    requires AllProper(d.sentences, d.early) && s < |d.sentences| && ProperCode(body, |d.sentences|, d.early)
    ensures AllProper(d.sentences[s := body], d.early)
  {
  }

  /** A failing arm just filed, with the settled rest it goes with, is a new early return. */
  lemma ExitRecorded(d: Draft, err: Value, x: EarlyReturn)
    requires Fine(d, err) && x.rest in d.code && d.named <= x.fail < |d.sentences| && x.fail !in d.code
    requires d.sentences[x.fail] == FailStart(err)
    requires forall s, ip | 0 <= s < |d.sentences| && 0 <= ip < |d.sentences[s]| ::
      x.fail !in d.sentences[s][ip].Callees()
    requires forall y | y in d.early :: y.fail != x.fail
    ensures Fine(d.(early := d.early + [x]), err)
  {
    hide CodeSettled;
    var e := d.(early := d.early + [x]);
    forall key | key in e.reaches ensures ReachFiled(e, key.0, key.1, e.reaches[key]) {
      assert ReachFiled(d, key.0, key.1, d.reaches[key]);
    }
    forall key | key in e.frames ensures FrameFiled(e, key.0, key.1, e.frames[key]) {
      assert FrameFiled(d, key.0, key.1, d.frames[key]);
    }
    forall i | 0 <= i < |e.early| ensures ExitFiled(e, err, e.early[i]) {
      if i < |d.early| {
        assert ExitFiled(d, err, d.early[i]);
      }
    }
    forall s | 0 <= s < |e.sentences| ensures ProperCode(e.sentences[s], |e.sentences|, e.early) {
      forall ip | 0 <= ip < |e.sentences[s]| ensures Proper(e.sentences[s][ip], |e.sentences|, e.early) {
        assert ProperCode(d.sentences[s], |d.sentences|, d.early);
        assert Proper(d.sentences[s][ip], |d.sentences|, d.early);
      }
    }
    assert CodeSettled(e) by { SameCode(d, e); }
  }

  lemma SameCode(d: Draft, e: Draft)
    requires CodeSettled(d) && e == d.(early := e.early)
    ensures CodeSettled(e)
  {
  }
}
