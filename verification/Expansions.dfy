/** On a certified library, compiled words do to every stack what the words mean. */
module Expansions {
  import opened Wrappers
  import opened Values
  import opened Prims
  import opened Terms
  import opened Libraries
  import opened Meanings
  import opened Lowering
  import opened Surface
  import opened Emitting

  type Code = map<SentenceIndex, Libraries.Sentence>

  function Of(r: Option<seq<Value>>): Outcome {
    match r
    case Some(stack) => Done(stack)
    case None => Short
  }

  /** The library has this code, and a certificate for all of it. */
  ghost predicate Holds(lib: Library, c: Certificate, code: Code) {
    && lib.Closed() && Certifies(lib, c)
    && forall t | t in code :: t < |lib.sentences| && lib.sentences[t] == code[t]
  }

  lemma InRange(lib: Library, c: Certificate, s: SentenceIndex)
    requires Covered(lib, c, s)
    ensures s < |lib.sentences| && s in c.ranks
  {
  }

  lemma OneStep(lib: Library, c: Certificate, s: SentenceIndex, ip: nat, stack: seq<Value>)
    requires Certifies(lib, c) && s in c.arities && ip < |lib.sentences[s]|
    ensures RunFrom(lib, c, s, ip, stack)
      == match RunInst(lib, c, s, ip, stack) case Some(next) => RunFrom(lib, c, s, ip + 1, next) case None => None
  {
    hide RunInst;
  }

  /** One frame: the callee runs below the hidden top, which comes back on what it leaves. */
  lemma DipMeans(lib: Library, c: Certificate, s: SentenceIndex, ip: nat, t: SentenceIndex, stack: seq<Value>)
    requires Covered(lib, c, s) && ip < |lib.sentences[s]| && lib.sentences[s][ip] == Instruction.Dip(t)
    ensures Covered(lib, c, t) && c.ranks[t] < c.ranks[s]
    ensures Of(RunInst(lib, c, s, ip, stack))
      == if stack == [] then Short else Above(Of(RunFrom(lib, c, t, 0, stack[..|stack| - 1])), [stack[|stack| - 1]])
  {
    assert t in lib.sentences[s][ip].Callees();
    CalleeCovered(lib, c, s, ip, t);
  }

  /** Reaching one deeper is reaching under a frame, and bringing the answer up past what it hid. */
  lemma ReachDeeper(kind: Reach, d: nat, stack: seq<Value>)
    requires d > 1 || (d == 1 && kind != Moving)
    ensures stack == [] ==> ReachOn(kind, d, stack) == Short
    ensures stack != [] && ReachOn(kind, d - 1, stack[..|stack| - 1]) == Short ==> ReachOn(kind, d, stack) == Short
    ensures stack != [] && ReachOn(kind, d - 1, stack[..|stack| - 1]).Done? ==>
      var x := stack[|stack| - 1];
      var s := ReachOn(kind, d - 1, stack[..|stack| - 1]).stack;
      if kind == Discarding then ReachOn(kind, d, stack) == Done(s + [x])
      else |s| > 0 && ReachOn(kind, d, stack) == Done(s[..|s| - 1] + [x, s[|s| - 1]])
  {
    if |stack| > d {
      var (x, under) := (stack[|stack| - 1], stack[..|stack| - 1]);
      var i := |stack| - 1 - d;
      OneShallower(stack, i);
      match kind
      case Discarding =>
      case Moving => TopComesOff(under[..i] + under[i + 1..], under[i]);
      case Copying => TopComesOff(under, under[i]);
    }
  }

  /** What reaching past the top sees of the stack, and what of it the top is put back on. */
  lemma OneShallower(stack: seq<Value>, i: nat)
    requires i + 1 < |stack|
    ensures var (x, under) := (stack[|stack| - 1], stack[..|stack| - 1]);
      && under[i] == stack[i] && under + [x] == stack
      && stack[..i] + stack[i + 1..] == under[..i] + under[i + 1..] + [x]
  {
  }

  lemma TopComesOff(s: seq<Value>, y: Value)
    ensures (s + [y])[..|s + [y]| - 1] == s && (s + [y])[|s + [y]| - 1] == y
    ensures forall x: Value :: s + [x, y] == s + [x] + [y]
  {
  }

  /** The swap that brings the answer up past what the frame hid. */
  lemma SwapRuns(lib: Library, c: Certificate, s: SentenceIndex, ip: nat, below: seq<Value>, y: Value, x: Value)
    requires Covered(lib, c, s) && ip < |lib.sentences[s]| && lib.sentences[s][ip] == Local(Swap)
    ensures RunInst(lib, c, s, ip, below + [y, x]) == Some(below + [x, y])
    ensures RunFrom(lib, c, s, ip, below + [y, x]) == RunFrom(lib, c, s, ip + 1, below + [x, y])
  {
    hide RunFrom;
    var stack := below + [y, x];
    assert stack[..|stack| - 2] == below && stack[|stack| - 2..] == [y, x];
    OneStep(lib, c, s, ip, stack);
  }

  lemma RunsToEnd(lib: Library, c: Certificate, s: SentenceIndex, stack: seq<Value>)
    requires Covered(lib, c, s)
    ensures RunFrom(lib, c, s, |lib.sentences[s]|, stack) == Some(stack)
  {
  }

  /** A block filed for a movement performs it. */
  lemma {:induction false} BlockReaches(
    lib: Library, c: Certificate, code: Code, t: SentenceIndex, kind: Reach, d: nat, stack: seq<Value>)
    requires Holds(lib, c, code) && t in c.arities && t in code && ReachCode(code, kind, d, code[t])
    ensures Of(RunFrom(lib, c, t, 0, stack)) == ReachOn(kind, d, stack)
    decreases d, 1
  {
    hide RunFrom; hide Certifies; hide Library.Closed; hide ReachOn;
    var n := ReachLength(kind, d);
    assert n == |code[t]| && lib.sentences[t][0..0 + n] == code[t];
    ReachRuns(lib, c, code, t, 0, kind, d, stack);
    if ReachOn(kind, d, stack).Done? {
      RunsToEnd(lib, c, t, ReachOn(kind, d, stack).stack);
    }
  }

  lemma ReachedHere(
    lib: Library, c: Certificate, s: SentenceIndex, ip: nat, kind: Reach, d: nat, stack: seq<Value>)
    requires Covered(lib, c, s) && ip < |lib.sentences[s]| && (if kind == Moving then d == 1 else d == 0)
    requires lib.sentences[s][ip]
      == (match kind case Discarding => Instruction.Drop case Copying => Instruction.Copy case Moving => Local(Swap))
    ensures Of(RunInst(lib, c, s, ip, stack)) == ReachOn(kind, d, stack)
  {
    hide RunFrom; hide Justified; hide Lower;
    var top := |stack| - 1;
    match kind
    case Copying =>
    case Discarding =>
      if top >= 0 {
        assert stack[..top] + stack[top + 1..] == stack[..top];
      }
    case Moving =>
      if top > 0 {
        var below, y, x := stack[..top - 1], stack[top - 1], stack[top];
        assert stack == below + [y, x] && stack[top..] == [x];
        SwapRuns(lib, c, s, ip, below, y, x);
        assert below + [x] + [y] == below + [x, y];
      }
  }

  /** The frame a deeper movement is, and what follows it, given what the block inside does. */
  lemma ReachUnder(
    lib: Library, c: Certificate, s: SentenceIndex, ip: nat, t: SentenceIndex, kind: Reach, d: nat,
    under: seq<Value>, x: Value)
    requires Covered(lib, c, s) && Covered(lib, c, t) && (d > 1 || (d == 1 && kind != Moving))
    requires ip + ReachLength(kind, d) <= |lib.sentences[s]| && lib.sentences[s][ip] == Instruction.Dip(t)
    requires kind != Discarding ==> lib.sentences[s][ip + 1] == Local(Swap)
    requires Of(RunFrom(lib, c, t, 0, under)) == ReachOn(kind, d - 1, under)
    ensures Of(RunFrom(lib, c, s, ip, under + [x]))
      == match ReachOn(kind, d, under + [x])
         case Done(next) => Of(RunFrom(lib, c, s, ip + ReachLength(kind, d), next))
         case stopped => stopped
  {
    hide RunFrom; hide RunInst; hide Certifies; hide Library.Closed; hide ReachOn;
    var stack := under + [x];
    assert stack[..|stack| - 1] == under && stack[|stack| - 1] == x;
    OneStep(lib, c, s, ip, stack);
    DipMeans(lib, c, s, ip, t, stack);
    ReachDeeper(kind, d, stack);
    var inner := ReachOn(kind, d - 1, under);
    if kind != Discarding && inner.Done? {
      var last := |inner.stack| - 1;
      SwapRuns(lib, c, s, ip + 1, inner.stack[..last], inner.stack[last], x);
      assert inner.stack + [x] == inner.stack[..last] + [inner.stack[last], x];
    }
  }

  /** Code for a movement, wherever it stands, performs the indexed operation and goes on. */
  lemma {:induction false} ReachRuns(
    lib: Library, c: Certificate, code: Code, s: SentenceIndex, ip: nat, kind: Reach, d: nat, stack: seq<Value>)
    requires Holds(lib, c, code) && s in c.arities && ip + ReachLength(kind, d) <= |lib.sentences[s]|
    requires ReachCode(code, kind, d, lib.sentences[s][ip..ip + ReachLength(kind, d)])
    ensures Of(RunFrom(lib, c, s, ip, stack))
      == match ReachOn(kind, d, stack)
         case Done(next) => Of(RunFrom(lib, c, s, ip + ReachLength(kind, d), next))
         case stopped => stopped
    decreases d, 0
  {
    hide RunFrom; hide RunInst; hide Certifies; hide Library.Closed;
    InRange(lib, c, s);
    var n := ReachLength(kind, d);
    var insts := lib.sentences[s][ip..ip + n];
    if n > 0 {
      assert insts[0] == lib.sentences[s][ip];
      OneStep(lib, c, s, ip, stack);
      if d == 0 || (kind == Moving && d == 1) {
        ReachedHere(lib, c, s, ip, kind, d, stack);
      } else {
        hide ReachOn;
        var t := insts[0].target;
        DipMeans(lib, c, s, ip, t, stack);
        if stack == [] {
          ReachDeeper(kind, d, stack);
        } else {
          var under, x := stack[..|stack| - 1], stack[|stack| - 1];
          assert stack == under + [x];
          BlockReaches(lib, c, code, t, kind, d - 1, under);
          assert kind != Discarding ==> insts[1] == lib.sentences[s][ip + 1];
          ReachUnder(lib, c, s, ip, t, kind, d, under, x);
        }
      }
    }
  }

  // ---- frames ----

  /** A call under `d` hidden values: they are put back exactly as they were. */
  lemma {:induction false} FrameRuns(
    lib: Library, c: Certificate, code: Code, s: SentenceIndex, ip: nat, d: nat, target: SentenceIndex,
    stack: seq<Value>)
    requires Holds(lib, c, code) && s in c.arities && ip < |lib.sentences[s]|
    requires Framed(code, d, target, lib.sentences[s][ip])
    ensures Covered(lib, c, target) && c.ranks[target] < c.ranks[s]
    ensures Of(RunInst(lib, c, s, ip, stack))
      == if |stack| < d then Short
        else Above(Of(RunFrom(lib, c, target, 0, stack[..|stack| - d])), stack[|stack| - d..])
    decreases d
  {
    hide RunFrom; hide RunInst; hide Certifies; hide Library.Closed; hide Above;
    InRange(lib, c, s);
    if d == 0 {
      JumpMeans(lib, c, s, ip, target, stack);
      assert stack[..|stack| - d] == stack && stack[|stack| - d..] == [];
      NothingHidden(Of(RunFrom(lib, c, target, 0, stack)));
    } else {
      var t := lib.sentences[s][ip].target;
      DipMeans(lib, c, s, ip, t, stack);
      if d == 1 {
        assert stack != [] ==> stack[|stack| - 1..] == [stack[|stack| - 1]];
      } else {
        InRange(lib, c, t);
        var under := if stack == [] then [] else stack[..|stack| - 1];
        FrameRuns(lib, c, code, t, 0, d - 1, target, under);
        OneInstruction(lib, c, t, under);
        FrameOfFrame(Of(RunFrom(lib, c, target, 0, if |stack| < d then [] else stack[..|stack| - d])), d, stack);
      }
    }
  }

  /** Hiding `d - 1` values under one more hides `d`. */
  lemma FrameOfFrame(inner: Outcome, d: nat, stack: seq<Value>)
    requires d > 1
    ensures stack != [] ==>
      var under := stack[..|stack| - 1];
      Above(if |under| < d - 1 then Short else Above(inner, under[|under| - (d - 1)..]), [stack[|stack| - 1]])
      == if |stack| < d then Short else Above(inner, stack[|stack| - d..])
    ensures |stack| >= d ==> stack[..|stack| - 1][..|stack| - d] == stack[..|stack| - d]
  {
    if |stack| >= d {
      var under := stack[..|stack| - 1];
      assert under[|under| - (d - 1)..] + [stack[|stack| - 1]] == stack[|stack| - d..];
      AboveTwice(inner, under[|under| - (d - 1)..], [stack[|stack| - 1]]);
    }
  }

  lemma JumpMeans(lib: Library, c: Certificate, s: SentenceIndex, ip: nat, t: SentenceIndex, stack: seq<Value>)
    requires Covered(lib, c, s) && ip < |lib.sentences[s]| && lib.sentences[s][ip] == Instruction.Jump(t)
    ensures Covered(lib, c, t) && c.ranks[t] < c.ranks[s]
    ensures RunInst(lib, c, s, ip, stack) == RunFrom(lib, c, t, 0, stack)
  {
    assert t in lib.sentences[s][ip].Callees();
    CalleeCovered(lib, c, s, ip, t);
  }

  lemma NothingHidden(outcome: Outcome)
    ensures Above(outcome, []) == outcome
  {
  }

  lemma AboveTwice(outcome: Outcome, a: seq<Value>, b: seq<Value>)
    ensures Above(Above(outcome, a), b) == Above(outcome, a + b)
  {
    if outcome.Done? {
      assert outcome.stack + a + b == outcome.stack + (a + b);
    }
  }

  lemma OneInstruction(lib: Library, c: Certificate, s: SentenceIndex, stack: seq<Value>)
    requires Covered(lib, c, s) && |lib.sentences[s]| == 1
    ensures RunFrom(lib, c, s, 0, stack) == RunInst(lib, c, s, 0, stack)
  {
    hide RunInst;
    OneStep(lib, c, s, 0, stack);
    match RunInst(lib, c, s, 0, stack)
    case Some(next) => RunsToEnd(lib, c, s, next);
    case None =>
  }
}
