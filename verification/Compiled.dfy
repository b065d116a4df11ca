/** A compiled program, certified, does on the machine what its words mean. */
module Compiled {
  import opened Wrappers
  import opened Values
  import opened Prims
  import opened Terms
  import opened Libraries
  import opened Meanings
  import opened Lowering
  import opened Surface
  import opened Emitting
  import opened Expansions
  import opened Balances

  // ---- single instructions, by what lies on top ----

  lemma LocalRuns(
    lib: Library, c: Certificate, s: SentenceIndex, ip: nat, prim: Prim, below: seq<Value>, args: seq<Value>)
    requires Covered(lib, c, s) && ip < |lib.sentences[s]| && lib.sentences[s][ip] == Local(prim)
    requires |args| == prim.Effect().inputs
    ensures RunFrom(lib, c, s, ip, below + args) == RunFrom(lib, c, s, ip + 1, below + Answer(prim, args))
  {
    hide RunFrom; hide Answer;
    var stack := below + args;
    assert stack[..|stack| - |args|] == below && stack[|stack| - |args|..] == args;
    OneStep(lib, c, s, ip, stack);
  }

  lemma CopyRuns(lib: Library, c: Certificate, s: SentenceIndex, ip: nat, below: seq<Value>, x: Value)
    requires Covered(lib, c, s) && ip < |lib.sentences[s]| && lib.sentences[s][ip] == Instruction.Copy
    ensures RunFrom(lib, c, s, ip, below + [x]) == RunFrom(lib, c, s, ip + 1, below + [x] + [x])
  {
    hide RunFrom;
    OneStep(lib, c, s, ip, below + [x]);
  }

  lemma BranchMeans(lib: Library, c: Certificate, s: SentenceIndex, ip: nat, below: seq<Value>, x: Value)
    requires Covered(lib, c, s) && ip < |lib.sentences[s]| && lib.sentences[s][ip].Branch?
    ensures Below(lib, c, lib.sentences[s][ip].ifTrue, s) && Below(lib, c, lib.sentences[s][ip].ifFalse, s)
    ensures var arm := if x.Truthy() then lib.sentences[s][ip].ifTrue else lib.sentences[s][ip].ifFalse;
      RunInst(lib, c, s, ip, below + [x]) == RunFrom(lib, c, arm, 0, below)
  {
    var stack := below + [x];
    assert stack[..|stack| - 1] == below;
    var (t, f) := (lib.sentences[s][ip].ifTrue, lib.sentences[s][ip].ifFalse);
    assert t in lib.sentences[s][ip].Callees() && f in lib.sentences[s][ip].Callees();
    CalleeCovered(lib, c, s, ip, t);
    CalleeCovered(lib, c, s, ip, f);
  }

  // ---- the early return ----

  lemma {:induction false} DropsRun(
    lib: Library, c: Certificate, err: Value, f: SentenceIndex, drop: SentenceIndex, k: nat, j: nat,
    below: seq<Value>, x: Value)
    requires Salvages(lib, err, f, drop, k) && Covered(lib, c, f) && j <= k
    ensures Of(RunFrom(lib, c, f, 2 + (k - j), below + [x]))
      == if |below| < j then Short else Done(below[..|below| - j] + [x])
    decreases j
  {
    hide RunFrom; hide RunInst; hide Certifies; hide Library.Closed;
    var stack := below + [x];
    if j == 0 {
      RunsToEnd(lib, c, f, stack);
    } else {
      assert lib.sentences[f][2 + (k - j)] == Instruction.Dip(drop);
      assert stack[..|stack| - 1] == below;
      OneStep(lib, c, f, 2 + (k - j), stack);
      DipMeans(lib, c, f, 2 + (k - j), drop, stack);
      OneInstruction(lib, c, drop, below);
      DropMeans(lib, c, drop, below);
      if |below| > 0 {
        DropsRun(lib, c, err, f, drop, k, j - 1, below[..|below| - 1], x);
      }
    }
  }

  lemma DropMeans(lib: Library, c: Certificate, s: SentenceIndex, stack: seq<Value>)
    requires Covered(lib, c, s) && lib.sentences[s] == [Instruction.Drop]
    ensures Of(RunInst(lib, c, s, 0, stack)) == if stack == [] then Short else Done(stack[..|stack| - 1])
  {
  }

  /** The failing arm: one error carrying the payload, exactly `k` values dropped from under it. */
  lemma FailRuns(
    lib: Library, c: Certificate, err: Value, f: SentenceIndex, drop: SentenceIndex, k: nat,
    below: seq<Value>, payload: Value)
    requires Salvages(lib, err, f, drop, k) && Covered(lib, c, f)
    ensures Of(RunFrom(lib, c, f, 0, below + [payload]))
      == if |below| < k then Short else Done(below[..|below| - k] + [Value.Tuple([payload, err])])
  {
    hide RunFrom; hide Certifies; hide Library.Closed;
    LocalRuns(lib, c, f, 0, Push(err), below + [payload], []);
    assert below + [payload] + [] == below + [payload];
    assert below + [payload] + [err] == below + [payload, err];
    LocalRuns(lib, c, f, 1, Prim.Tuple(2), below, [payload, err]);
    DropsRun(lib, c, err, f, drop, k, k, below, Value.Tuple([payload, err]));
  }

  /** What the first branch of a `?` leaves: the payload, and whether it came tagged `ok`. */
  lemma AnswerRuns(
    lib: Library, c: Certificate, ok: Value, t: SentenceIndex, f: SentenceIndex, below: seq<Value>, v: Value)
    requires Covered(lib, c, t) && lib.sentences[t] == [Local(Untuple(2)), Local(Push(ok)), Local(Equal)]
    requires Covered(lib, c, f) && lib.sentences[f] == [Local(Push(Bool(false)))]
    ensures RunFrom(lib, c, if IsPair(v) then t else f, 0, below + [v])
      == Some(below + [Payload(v)] + [Bool(IsPair(v) && v.elements[1] == ok)])
  {
    hide RunFrom; hide Certifies; hide Library.Closed;
    if IsPair(v) {
      var a, b := v.elements[0], v.elements[1];
      LocalRuns(lib, c, t, 0, Untuple(2), below, [v]);
      assert Answer(Untuple(2), [v]) == [a, b];
      LocalRuns(lib, c, t, 1, Push(ok), below + [a, b], []);
      assert below + [a, b] + [] == below + [a, b];
      assert below + [a, b] + [ok] == below + [a] + [b, ok];
      LocalRuns(lib, c, t, 2, Equal, below + [a], [b, ok]);
      RunsToEnd(lib, c, t, below + [a] + [Bool(b == ok)]);
    } else {
      LocalRuns(lib, c, f, 0, Push(Bool(false)), below + [v], []);
      assert below + [v] + [] == below + [v];
      RunsToEnd(lib, c, f, below + [v] + [Bool(false)]);
    }
  }

  /** A `?` where it stands: on with the payload of an `ok`, or out with one error. */
  lemma TryRuns(
    lib: Library, c: Certificate, e: Emitted, ok: Value, s: SentenceIndex, ip: nat, below: seq<Value>, v: Value)
    requires Holds(lib, c, e.code) && s in c.arities && ip <= |lib.sentences[s]|
    requires AsksForAResult(e, ok, lib.sentences[s][ip..])
    ensures ip + 6 == |lib.sentences[s]| && lib.sentences[s][ip + 5].Branch?
    ensures Below(lib, c, lib.sentences[s][ip + 5].ifTrue, s) && Below(lib, c, lib.sentences[s][ip + 5].ifFalse, s)
    ensures var arm := if IsPair(v)
      && v.elements[1] == ok then lib.sentences[s][ip + 5].ifTrue else lib.sentences[s][ip + 5].ifFalse;
      RunFrom(lib, c, s, ip, below + [v]) == RunFrom(lib, c, arm, 0, below + [Payload(v)])
  {
    hide RunFrom; hide RunInst; hide Certifies; hide Library.Closed;
    AskedShape(lib, c, e, ok, s, ip);
    InRange(lib, c, s);
    hide AsksForAResult; hide Holds; hide Answer;
    CopyRuns(lib, c, s, ip, below, v);
    CopyRuns(lib, c, s, ip + 1, below + [v], v);
    AskRuns(lib, c, s, ip + 2, below, v);
    var asked := below + [v];
    BranchMeans(lib, c, s, ip + 4, asked, Bool(IsPair(v)));
    OneStep(lib, c, s, ip + 4, asked + [Bool(IsPair(v))]);
    AnswerRuns(lib, c, ok, lib.sentences[s][ip + 4].ifTrue, lib.sentences[s][ip + 4].ifFalse, below, v);
    var tagged := IsPair(v) && v.elements[1] == ok;
    var answered := below + [Payload(v)];
    BranchMeans(lib, c, s, ip + 5, answered, Bool(tagged));
    LastStep(lib, c, s, ip + 5, answered + [Bool(tagged)]);
  }

  lemma LastStep(lib: Library, c: Certificate, s: SentenceIndex, ip: nat, stack: seq<Value>)
    requires Covered(lib, c, s) && ip + 1 == |lib.sentences[s]|
    ensures RunFrom(lib, c, s, ip, stack) == RunInst(lib, c, s, ip, stack)
  {
    hide RunInst;
    OneStep(lib, c, s, ip, stack);
    match RunInst(lib, c, s, ip, stack)
    case Some(next) => RunsToEnd(lib, c, s, next);
    case None =>
  }

  /** `as_tuple 2` leaves alone the pairs and nothing else. */
  lemma PairsCoerceToThemselves(v: Value, coerced: Value)
    requires coerced == Value.Tuple(TakenApart(2, v))
    ensures Answer(AsTuple(2), [v]) == [coerced]
    ensures Answer(Equal, [v, coerced]) == [Bool(IsPair(v))]
  {
  }

  lemma AskRuns(lib: Library, c: Certificate, s: SentenceIndex, ip: nat, below: seq<Value>, v: Value)
    requires Covered(lib, c, s) && ip + 1 < |lib.sentences[s]|
    requires lib.sentences[s][ip] == Local(AsTuple(2)) && lib.sentences[s][ip + 1] == Local(Equal)
    ensures RunFrom(lib, c, s, ip, below + [v] + [v] + [v])
      == RunFrom(lib, c, s, ip + 2, below + [v] + [Bool(IsPair(v))])
  {
    hide RunFrom; hide Answer; hide TakenApart; hide IsPair; hide Certifies; hide Library.Closed;
    var coerced := Value.Tuple(TakenApart(2, v));
    PairsCoerceToThemselves(v, coerced);
    LocalRuns(lib, c, s, ip, AsTuple(2), below + [v] + [v], [v]);
    assert below + [v] + [v] + [coerced] == below + [v] + [v, coerced];
    LocalRuns(lib, c, s, ip + 1, Equal, below + [v], [v, coerced]);
  }

  // ---- the words are the program ----

  function Height(p: Program, target: Target): nat {
    match target
    case Inline(body) => |body| + 1
    case Label(s) => if s < |p.bodies| then |p.bodies[s]| + 2 else 0
  }

  /** A called body, with fuel for everything below it in the call order. */
  lemma {:induction false} TargetMeans(
    lib: Library, c: Certificate, p: Program, e: Emitted, target: Target, t: SentenceIndex, stack: seq<Value>,
    fuel: nat)
    requires Installed(lib, c, p, e) && Covered(lib, c, t) && Resolves(e, p.ok, target, t) && fuel > c.ranks[t] + 1
    ensures Surface.Enter(p, target, stack, fuel) == Of(RunFrom(lib, c, t, 0, stack))
    decreases c.ranks[t], Height(p, target)
  {
    hide RunFrom; hide Means; hide Certifies; hide Library.Closed; hide Installed; hide Renders;
    InstalledParts(lib, c, p, e);
    InRange(lib, c, t);
    match target
    case Label(s) => NamedMeans(lib, c, p, e, s, stack, fuel - 1);
    case Inline(body) =>
      assert lib.sentences[t][0..] == e.code[t];
      BodyMeans(lib, c, p, e, t, 0, body, stack, fuel);
  }

  /** A named sentence, run from the start, does what its written body means. */
  lemma {:induction false} NamedMeans(
    lib: Library, c: Certificate, p: Program, e: Emitted, s: SentenceIndex, stack: seq<Value>, fuel: nat)
    requires Installed(lib, c, p, e) && s < |p.bodies| && Covered(lib, c, s) && fuel > c.ranks[s]
    ensures Means(p, p.bodies[s], stack, fuel) == Of(RunFrom(lib, c, s, 0, stack))
    decreases c.ranks[s], |p.bodies[s]| + 1
  {
    hide RunFrom; hide Means;
    InstalledParts(lib, c, p, e);
    assert Named(lib, c, p, e, s);
    assert lib.sentences[s][0..] == e.code[s];
    BodyMeans(lib, c, p, e, s, 0, p.bodies[s], stack, fuel);
  }

  lemma {:induction false} CallMeans(
    lib: Library, c: Certificate, p: Program, e: Emitted, s: SentenceIndex, ip: nat, word: Word, stack: seq<Value>,
    fuel: nat)
    requires Installed(lib, c, p, e) && Covered(lib, c, s) && ip < |lib.sentences[s]| && fuel > c.ranks[s]
    requires word.Jump? || word.Dip? || word.Branch? || (word.Check? && word.item.Sentence?)
    requires RendersWord(e, p.ok, word, [lib.sentences[s][ip]])
    ensures WordMeans(p, word, stack, fuel) == Of(RunInst(lib, c, s, ip, stack))
    decreases c.ranks[s], 0, 0
  {
    hide RunFrom; hide RunInst; hide Certifies; hide Library.Closed; hide Installed; hide Renders; hide Means;
    hide Resolves;
    InstalledParts(lib, c, p, e);
    InRange(lib, c, s);
    var inst := [lib.sentences[s][ip]][0];
    match word
    case Jump(target) =>
      JumpMeans(lib, c, s, ip, inst.target, stack);
      InRange(lib, c, inst.target);
      TargetMeans(lib, c, p, e, target, inst.target, stack, fuel);
    case Dip(d, target) =>
      var t :| Framed(e.code, d, t, inst) && Resolves(e, p.ok, target, t);
      FrameRuns(lib, c, e.code, s, ip, d, t, stack);
      InRange(lib, c, t);
      if |stack| >= d {
        TargetMeans(lib, c, p, e, target, t, stack[..|stack| - d], fuel);
      }
    case Branch(yes, no) =>
      if stack == [] {
        NothingToTest(lib, c, s, ip);
      } else {
        var below, x := stack[..|stack| - 1], stack[|stack| - 1];
        assert stack == below + [x];
        BranchMeans(lib, c, s, ip, below, x);
        InRange(lib, c, inst.ifTrue);
        InRange(lib, c, inst.ifFalse);
        if x.Truthy() {
          TargetMeans(lib, c, p, e, yes, inst.ifTrue, below, fuel);
        } else {
          TargetMeans(lib, c, p, e, no, inst.ifFalse, below, fuel);
        }
      }
    case Check(Sentence(t)) =>
      JumpMeans(lib, c, s, ip, t, stack);
      InRange(lib, c, t);
      NamedMeans(lib, c, p, e, t, stack, fuel - 1);
  }

  lemma NothingToTest(lib: Library, c: Certificate, s: SentenceIndex, ip: nat)
    requires Covered(lib, c, s) && ip < |lib.sentences[s]| && lib.sentences[s][ip].Branch?
    ensures RunInst(lib, c, s, ip, []) == None
  {
  }

  lemma PlainMeans(lib: Library, c: Certificate, s: SentenceIndex, ip: nat, prim: Prim, stack: seq<Value>)
    requires Covered(lib, c, s) && ip < |lib.sentences[s]| && lib.sentences[s][ip] == Local(prim)
    ensures Of(RunInst(lib, c, s, ip, stack)) == OnPrim(prim, stack)
  {
  }

  /** Testing a value against a constant: pushed and compared. */
  lemma ConstMeans(lib: Library, c: Certificate, s: SentenceIndex, ip: nat, v: Value, stack: seq<Value>)
    requires Covered(lib, c, s) && ip + 1 < |lib.sentences[s]|
    requires lib.sentences[s][ip] == Local(Push(v)) && lib.sentences[s][ip + 1] == Local(Equal)
    ensures Of(RunFrom(lib, c, s, ip, stack))
      == if stack == [] then Short
         else Of(RunFrom(lib, c, s, ip + 2, stack[..|stack| - 1] + [Bool(stack[|stack| - 1] == v)]))
  {
    hide RunFrom; hide RunInst; hide Certifies; hide Library.Closed;
    LocalRuns(lib, c, s, ip, Push(v), stack, []);
    assert stack + [] == stack;
    if stack == [] {
      OneStep(lib, c, s, ip + 1, [v]);
      PlainMeans(lib, c, s, ip + 1, Equal, [v]);
      assert stack + [v] == [v];
    } else {
      var below, x := stack[..|stack| - 1], stack[|stack| - 1];
      assert stack + [v] == below + [x, v];
      LocalRuns(lib, c, s, ip + 1, Equal, below, [x, v]);
    }
  }

  lemma {:induction false} WordRuns(
    lib: Library, c: Certificate, p: Program, e: Emitted, s: SentenceIndex, ip: nat, word: Word, stack: seq<Value>,
    fuel: nat)
    requires Installed(lib, c, p, e) && Covered(lib, c, s) && !word.Try? && ip + Length(word) <= |lib.sentences[s]|
    requires RendersWord(e, p.ok, word, lib.sentences[s][ip..ip + Length(word)]) && fuel > c.ranks[s]
    ensures Of(RunFrom(lib, c, s, ip, stack))
      == match WordMeans(p, word, stack, fuel)
         case Done(next) => Of(RunFrom(lib, c, s, ip + Length(word), next))
         case stopped => stopped
    decreases c.ranks[s], 0, 1
  {
    hide RunFrom; hide RunInst; hide Certifies; hide Library.Closed; hide Installed; hide Renders; hide Resolves;
    hide OnPrim; hide ReachOn; hide Means;
    InstalledParts(lib, c, p, e);
    InRange(lib, c, s);
    var insts := lib.sentences[s][ip..ip + Length(word)];
    if word.Drop? {
      ReachRuns(lib, c, e.code, s, ip, Discarding, word.depth, stack);
    } else if word.Pick? {
      ReachRuns(lib, c, e.code, s, ip, Copying, word.depth, stack);
    } else if word.Roll? {
      ReachRuns(lib, c, e.code, s, ip, Moving, word.depth, stack);
    } else if word.Plain? {
      assert insts[0] == lib.sentences[s][ip];
      OneStep(lib, c, s, ip, stack);
      PlainMeans(lib, c, s, ip, word.prim, stack);
    } else if word.Check? && word.item.Const? {
      assert insts[0] == lib.sentences[s][ip] && insts[1] == lib.sentences[s][ip + 1];
      ConstMeans(lib, c, s, ip, word.item.v, stack);
    } else {
      assert insts == [lib.sentences[s][ip]];
      OneStep(lib, c, s, ip, stack);
      CallMeans(lib, c, p, e, s, ip, word, stack, fuel);
    }
  }

  /** From any point of a compiled body on, the library does what the words left over mean. */
  lemma {:induction false} BodyMeans(
    lib: Library, c: Certificate, p: Program, e: Emitted, s: SentenceIndex, ip: nat, body: Body, stack: seq<Value>,
    fuel: nat)
    requires Installed(lib, c, p, e) && Covered(lib, c, s) && ip <= |lib.sentences[s]| && fuel > c.ranks[s]
    requires Renders(e, p.ok, body, lib.sentences[s][ip..])
    ensures Means(p, body, stack, fuel) == Of(RunFrom(lib, c, s, ip, stack))
    decreases c.ranks[s], |body|, 0
  {
    hide RunFrom; hide RunInst; hide Certifies; hide Library.Closed; hide Installed; hide RendersWord; hide WordMeans;
    InRange(lib, c, s);
    if body == [] {
      RunsToEnd(lib, c, s, stack);
    } else if body[0].Try? {
      TryMeans(lib, c, p, e, s, ip, body, stack, fuel);
    } else {
      var n := Length(body[0]);
      assert lib.sentences[s][ip..][..n] == lib.sentences[s][ip..ip + n];
      assert lib.sentences[s][ip..][n..] == lib.sentences[s][ip + n..];
      WordRuns(lib, c, p, e, s, ip, body[0], stack, fuel);
      match WordMeans(p, body[0], stack, fuel)
      case Done(next) => BodyMeans(lib, c, p, e, s, ip + n, body[1..], next, fuel);
      case _ =>
    }
  }

  lemma {:induction false} TryMeans(
    lib: Library, c: Certificate, p: Program, e: Emitted, s: SentenceIndex, ip: nat, body: Body, stack: seq<Value>,
    fuel: nat)
    requires Installed(lib, c, p, e) && Covered(lib, c, s) && ip <= |lib.sentences[s]| && fuel > c.ranks[s]
    requires body != [] && body[0].Try? && Renders(e, p.ok, body, lib.sentences[s][ip..])
    ensures Means(p, body, stack, fuel) == Of(RunFrom(lib, c, s, ip, stack))
    decreases c.ranks[s], 0, 1
  {
    hide RunFrom; hide RunInst; hide Certifies; hide Library.Closed; hide Installed; hide RendersWord;
    InstalledParts(lib, c, p, e);
    InRange(lib, c, s);
    AskedShape(lib, c, e, p.ok, s, ip);
    var rest, fail := lib.sentences[s][ip + 5].ifTrue, lib.sentences[s][ip + 5].ifFalse;
    if stack == [] {
      OneStep(lib, c, s, ip, stack);
      NothingToCopy(lib, c, s, ip);
    } else {
      var below, v := stack[..|stack| - 1], stack[|stack| - 1];
      assert stack == below + [v];
      TryRuns(lib, c, e, p.ok, s, ip, below, v);
      InRange(lib, c, rest);
      assert lib.sentences[s][ip..][5] == lib.sentences[s][ip + 5];
      assert lib.sentences[rest][0..] == e.code[rest];
      if IsPair(v) && v.elements[1] == p.ok {
        BodyMeans(lib, c, p, e, rest, 0, body[1..], below + [Payload(v)], fuel);
      } else {
        FailMeans(lib, c, p, e, s, ip, body[1..], below, v);
      }
    }
  }

  lemma NothingToCopy(lib: Library, c: Certificate, s: SentenceIndex, ip: nat)
    requires Covered(lib, c, s) && ip < |lib.sentences[s]| && lib.sentences[s][ip] == Instruction.Copy
    ensures RunInst(lib, c, s, ip, []) == None
  {
  }

  /** The drops a balanced early return makes are exactly what finishing the body would have consumed. */
  lemma FailMeans(
    lib: Library, c: Certificate, p: Program, e: Emitted, s: SentenceIndex, ip: nat, rest: Body, below: seq<Value>,
    v: Value)
    requires Installed(lib, c, p, e) && Covered(lib, c, s) && ip + 6 == |lib.sentences[s]|
    requires lib.sentences[s][ip + 5].Branch?
    requires var (t, f) := (lib.sentences[s][ip + 5].ifTrue, lib.sentences[s][ip + 5].ifFalse);
      (t, f) in e.exits && t in e.code && Renders(e, p.ok, rest, e.code[t])
    ensures Below(lib, c, lib.sentences[s][ip + 5].ifFalse, s)
    ensures EarlyReturn(p, -NetOf(p.nets, rest), below, v)
      == Of(RunFrom(lib, c, lib.sentences[s][ip + 5].ifFalse, 0, below + [Payload(v)]))
  {
    hide RunFrom; hide RunInst; hide Certifies; hide Library.Closed; hide NetAt; hide NetHere; hide Renders;
    InstalledParts(lib, c, p, e);
    InRange(lib, c, s);
    NetOfInst(lib, c, s, ip + 5);
    var (t, f) := (lib.sentences[s][ip + 5].ifTrue, lib.sentences[s][ip + 5].ifFalse);
    assert lib.sentences[t][0..] == e.code[t];
    BodyNet(lib, c, p, e, c.ranks[t], t, 0, rest);
    NetGrows(lib, c, t, 0);
    assert Salvaging(lib, p.err, (t, f).1);
    var drop, k :| Salvages(lib, p.err, f, drop, k);
    hide Installed;
    SalvageNet(lib, c, p.err, f, drop, k);
    assert k == -NetOf(p.nets, rest);
    FailRuns(lib, c, p.err, f, drop, k, below, Payload(v));
  }

  predicate LeavesOneError(done: Option<seq<Value>>, below: seq<Value>, v: Value, err: Value, drops: int) {
    0 <= drops <= |below| && done == Some(below[..|below| - drops] + [Value.Tuple([Payload(v), err])])
  }

  predicate TaggedOk(v: Value, ok: Value) {
    IsPair(v) && v.elements[1] == ok
  }

  /**
   * `?` in a certified program. A result tagged `ok` goes on with what it carried. Anything else leaves
   * one error, after dropping from under it exactly as many values as the rest would have consumed; so
   * both ways leave the stack equally high.
   */
  lemma EarlyReturnsAsHighAsFinishing(
    lib: Library, c: Certificate, p: Program, e: Emitted, s: SentenceIndex, ip: nat, tail: Body, below: seq<Value>,
    v: Value)
    returns (rest: SentenceIndex)
    requires Installed(lib, c, p, e) && Covered(lib, c, s) && ip <= |lib.sentences[s]|
    requires Renders(e, p.ok, [Try] + tail, lib.sentences[s][ip..])
    ensures Covered(lib, c, rest) && rest in e.code && Renders(e, p.ok, tail, e.code[rest])
    ensures c.arities[rest].Net() <= 0
    ensures |below| + 1 >= c.arities[rest].inputs && TaggedOk(v, p.ok) ==>
      RunFrom(lib, c, s, ip, below + [v]) == RunFrom(lib, c, rest, 0, below + [v.elements[0]])
    ensures |below| + c.arities[rest].Net() >= 0 && !TaggedOk(v, p.ok) ==>
      LeavesOneError(RunFrom(lib, c, s, ip, below + [v]), below, v, p.err, -c.arities[rest].Net())
    ensures |below| + 1 >= c.arities[rest].inputs && |below| + c.arities[rest].Net() >= 0 ==>
      var done := RunFrom(lib, c, s, ip, below + [v]);
      done.Some? && |done.value| == |below| + 1 + c.arities[rest].Net()
  {
    hide RunFrom; hide RunInst; hide Certifies; hide Library.Closed; hide RendersWord; hide NetAt; hide NetHere;
    InstalledParts(lib, c, p, e);
    InRange(lib, c, s);
    assert ([Try] + tail)[1..] == tail;
    AskedShape(lib, c, e, p.ok, s, ip);
    rest := lib.sentences[s][ip + 5].ifTrue;
    var fail := lib.sentences[s][ip + 5].ifFalse;
    assert lib.sentences[s][ip..][5] == lib.sentences[s][ip + 5];
    TryRuns(lib, c, e, p.ok, s, ip, below, v);
    NetOfInst(lib, c, s, ip + 5);
    assert Salvaging(lib, p.err, (rest, fail).1);
    var drop, k :| Salvages(lib, p.err, fail, drop, k);
    hide Installed; hide Renders;
    SalvageNet(lib, c, p.err, fail, drop, k);
    FailRuns(lib, c, p.err, fail, drop, k, below, Payload(v));
    if |below| + 1 >= c.arities[rest].inputs {
      SentenceHeight(lib, c, rest, below + [Payload(v)]);
    }
  }

  /** A covered sentence leaves the stack as high as its arity says. */
  lemma SentenceHeight(lib: Library, c: Certificate, s: SentenceIndex, stack: seq<Value>)
    requires Covered(lib, c, s) && |stack| >= c.arities[s].inputs
    ensures RunFrom(lib, c, s, 0, stack).Some?
    ensures |RunFrom(lib, c, s, 0, stack).value| == |stack| + c.arities[s].Net()
  {
    hide RunFrom; hide RunOn; hide Run; hide Certifies; hide LowerSentence; hide LibraryCalls; hide Tree.Ok;
    hide Tree.Effect;
    var below, args := stack[..|stack| - c.arities[s].inputs], stack[|stack| - c.arities[s].inputs..];
    assert stack == below + args;
    SentenceFaithful(lib, c, s, stack);
    RunOnSplit(LowerSentence(lib, c, s), LibraryCalls(lib, c), below, args);
  }
}
