/** What a sentence does to a stack, read off a certificate, and the proof that the machine does it. */
module Meanings {
  import opened Wrappers
  import opened Values
  import opened Terms
  import opened Libraries
  import opened Machine

  /** A sentence from `ip` on, as a function of the whole stack; `None` is an underflow. */
  ghost function RunFrom(lib: Library, c: Certificate, s: SentenceIndex, ip: nat, stack: seq<Value>): Option<seq<Value>>
    requires Certifies(lib, c) && s in c.arities && ip <= |lib.sentences[s]|
    decreases c.ranks[s], |lib.sentences[s]| - ip
  {
    if ip == |lib.sentences[s]| then Some(stack)
    else
      assert Justified(lib, c, s) && Lower(c, s, lib.sentences[s][ip]);
      match RunInst(lib, c, s, ip, stack)
      case Some(next) => RunFrom(lib, c, s, ip + 1, next)
      case None => None
  }

  ghost function RunInst(lib: Library, c: Certificate, s: SentenceIndex, ip: nat, stack: seq<Value>): Option<seq<Value>>
    requires Certifies(lib, c) && s in c.arities && ip < |lib.sentences[s]|
    decreases c.ranks[s], |lib.sentences[s]| - ip, 0
  {
    assert Justified(lib, c, s) && Lower(c, s, lib.sentences[s][ip]);
    var top := |stack| - 1;
    match lib.sentences[s][ip]
    case Local(prim) => LocalStep(prim, stack)
    case Drop => if top < 0 then None else Some(stack[..top])
    case Copy => if top < 0 then None else Some(stack + [stack[top]])
    case Jump(t) =>
      assert t in lib.sentences[s][ip].Callees();
      RunFrom(lib, c, t, 0, stack)
    case Dip(t) =>
      assert t in lib.sentences[s][ip].Callees();
      if top < 0 then None
      else (match RunFrom(lib, c, t, 0, stack[..top])
            case Some(out) => Some(out + [stack[top]])
            case None => None)
    case Branch(t, f) =>
      assert t in lib.sentences[s][ip].Callees() && f in lib.sentences[s][ip].Callees();
      if top < 0 then None
      else RunFrom(lib, c, if stack[top].Truthy() then t else f, 0, stack[..top])
  }

  // ---- the same with calls left open ----

  /**
   * A sentence whose calls are answered by whatever `calls` says of the sentence named, and whose `<inline>` blocks are
   * entered: what it does as far as its own words say.
   */
  ghost function AnsweredFrom(
    lib: Library, c: Certificate, calls: Interp, s: SentenceIndex, ip: nat, stack: seq<Value>): Option<seq<Value>>
    requires lib.Closed() && Certifies(lib, c) && s in c.arities && ip <= |lib.sentences[s]|
    decreases c.ranks[s], 1, |lib.sentences[s]| - ip
  {
    if ip == |lib.sentences[s]| then Some(stack)
    else
      match AnsweredInst(lib, c, calls, s, ip, stack)
      case Some(next) => AnsweredFrom(lib, c, calls, s, ip + 1, next)
      case None => None
  }

  ghost function AnsweredInst(
    lib: Library, c: Certificate, calls: Interp, s: SentenceIndex, ip: nat, stack: seq<Value>): Option<seq<Value>>
    requires lib.Closed() && Certifies(lib, c) && s in c.arities && ip < |lib.sentences[s]|
    decreases c.ranks[s], 1, |lib.sentences[s]| - ip, 0
  {
    assert Justified(lib, c, s) && Lower(c, s, lib.sentences[s][ip]);
    var top := |stack| - 1;
    match lib.sentences[s][ip]
    case Local(prim) => LocalStep(prim, stack)
    case Drop => if top < 0 then None else Some(stack[..top])
    case Copy => if top < 0 then None else Some(stack + [stack[top]])
    case Jump(t) =>
      assert t in lib.sentences[s][ip].Callees();
      AnsweredTarget(lib, c, calls, t, stack)
    case Dip(t) =>
      assert t in lib.sentences[s][ip].Callees();
      if top < 0 then None
      else (match AnsweredTarget(lib, c, calls, t, stack[..top])
            case Some(out) => Some(out + [stack[top]])
            case None => None)
    case Branch(t, f) =>
      assert t in lib.sentences[s][ip].Callees() && f in lib.sentences[s][ip].Callees();
      if top < 0 then None
      else AnsweredTarget(lib, c, calls, if stack[top].Truthy() then t else f, stack[..top])
  }

  ghost function AnsweredTarget(
    lib: Library, c: Certificate, calls: Interp, t: SentenceIndex, stack: seq<Value>): Option<seq<Value>>
    requires lib.Closed() && Certifies(lib, c) && t in c.arities
    decreases c.ranks[t], 2
  {
    var cut := |stack| - c.arities[t].inputs;
    if lib.names[t] == INLINE_BLOCK then AnsweredFrom(lib, c, calls, t, 0, stack)
    else if cut < 0 then None
    else Some(stack[..cut] + CallAnswer(calls, t, c.arities[t], stack[cut..]))
  }

  lemma AnsweredFromNext(
    lib: Library, c: Certificate, calls: Interp, s: SentenceIndex, ip: nat, stack: seq<Value>, next: seq<Value>)
    requires lib.Closed() && Certifies(lib, c) && s in c.arities && ip < |lib.sentences[s]|
    requires AnsweredInst(lib, c, calls, s, ip, stack) == Some(next)
    ensures AnsweredFrom(lib, c, calls, s, ip, stack) == AnsweredFrom(lib, c, calls, s, ip + 1, next)
  {
    hide AnsweredInst;
  }

  /** The size of a sentence's call expansion, in machine turns, from `ip` on. */
  ghost function Turns(lib: Library, c: Certificate, s: SentenceIndex, ip: nat): nat
    requires Certifies(lib, c) && s in c.arities && ip <= |lib.sentences[s]|
    decreases c.ranks[s], |lib.sentences[s]| - ip
  {
    if ip == |lib.sentences[s]| then 0
    else
      assert Justified(lib, c, s) && Lower(c, s, lib.sentences[s][ip]);
      var rest := Turns(lib, c, s, ip + 1);
      match lib.sentences[s][ip]
      case Jump(t) =>
        assert t in lib.sentences[s][ip].Callees();
        Turns(lib, c, t, 0) + 2 + rest
      case Dip(t) =>
        assert t in lib.sentences[s][ip].Callees();
        Turns(lib, c, t, 0) + 2 + rest
      case Branch(t, f) =>
        assert t in lib.sentences[s][ip].Callees() && f in lib.sentences[s][ip].Callees();
        Turns(lib, c, t, 0) + Turns(lib, c, f, 0) + 2 + rest
      case _ => 1 + rest
  }

  /** A call is entered, run and returned from, with what it hid put back on top. */
  lemma CallRuns(
    lib: Library, c: State, stack: seq<Value>, hidden: seq<Value>, t: SentenceIndex, out: seq<Value>, n: nat)
    requires t < |lib.sentences| && Step(lib, c) == Enter(c, stack, hidden, t)
    requires var d := Enter(c, stack, hidden, t).state;
      RunFor(lib, d, n) == Running(d.(stack := out, ip := |lib.sentences[t]|))
    ensures RunFor(lib, c, n + 2) == Running(c.(stack := out + hidden, ip := c.ip + 1))
  {
    var d := Enter(c, stack, hidden, t).state;
    var e := d.(stack := out, ip := |lib.sentences[t]|);
    assert e.callStack[..|e.callStack| - 1] == c.callStack;
    RunForNext(lib, d, e, n);
    assert RunFor(lib, c, n + 2) == RunFor(lib, d, n + 1);
  }

  /** The machine does what the sentence means, whatever is on the call stack, and counts its turns. */
  lemma {:induction false} MachineRuns(
    lib: Library, c: Certificate, s: SentenceIndex, ip: nat, stack: seq<Value>, callStack: seq<Frame>) returns (n: nat)
    requires Certifies(lib, c) && s in c.arities && ip <= |lib.sentences[s]|
    requires RunFrom(lib, c, s, ip, stack).Some?
    ensures n <= Turns(lib, c, s, ip)
    ensures RunFor(lib, State(stack, callStack, s, ip), n)
      == Running(State(RunFrom(lib, c, s, ip, stack).value, callStack, s, |lib.sentences[s]|))
    decreases c.ranks[s], |lib.sentences[s]| - ip
  {
    hide Step; hide RunInst; hide Turns; hide Justified; hide Lower;
    if ip == |lib.sentences[s]| {
      return 0;
    }
    var next := RunInst(lib, c, s, ip, stack);
    var k := InstRuns(lib, c, s, ip, stack, callStack);
    var m := MachineRuns(lib, c, s, ip + 1, next.value, callStack);
    RunForAdds(lib, State(stack, callStack, s, ip), State(next.value, callStack, s, ip + 1), k, m);
    n := k + m;
  }

  lemma {:induction false} InstRuns(
    lib: Library, c: Certificate, s: SentenceIndex, ip: nat, stack: seq<Value>, callStack: seq<Frame>) returns (n: nat)
    requires Certifies(lib, c) && s in c.arities && ip < |lib.sentences[s]|
    requires RunInst(lib, c, s, ip, stack).Some?
    ensures n + Turns(lib, c, s, ip + 1) <= Turns(lib, c, s, ip)
    ensures RunFor(lib, State(stack, callStack, s, ip), n)
      == Running(State(RunInst(lib, c, s, ip, stack).value, callStack, s, ip + 1))
    decreases c.ranks[s], |lib.sentences[s]| - ip, 0
  {
    assert Justified(lib, c, s) && Lower(c, s, lib.sentences[s][ip]);
    var here := State(stack, callStack, s, ip);
    var top := |stack| - 1;
    match lib.sentences[s][ip] {
      case Jump(t) =>
        assert t in lib.sentences[s][ip].Callees();
        n := CalleeRuns(lib, c, here, stack, [], t);
      case Dip(t) =>
        assert t in lib.sentences[s][ip].Callees();
        n := CalleeRuns(lib, c, here, stack[..top], [stack[top]], t);
      case Branch(t, f) =>
        assert t in lib.sentences[s][ip].Callees() && f in lib.sentences[s][ip].Callees();
        n := CalleeRuns(lib, c, here, stack[..top], [], if stack[top].Truthy() then t else f);
      case _ =>
        n := 1;
        assert RunFor(lib, here, 1) == Step(lib, here);
    }
  }

  lemma {:induction false} CalleeRuns(
    lib: Library, c: Certificate, here: State, stack: seq<Value>, hidden: seq<Value>, t: SentenceIndex) returns (n: nat)
    requires Certifies(lib, c) && t in c.arities && Step(lib, here) == Enter(here, stack, hidden, t)
    requires RunFrom(lib, c, t, 0, stack).Some?
    ensures n <= Turns(lib, c, t, 0) + 2
    ensures RunFor(lib, here, n)
      == Running(here.(stack := Restored(RunFrom(lib, c, t, 0, stack).value, hidden), ip := here.ip + 1))
    decreases c.ranks[t], |lib.sentences[t]| + 1
  {
    hide Step; hide RunFor; hide RunFrom; hide Turns;
    var m := MachineRuns(lib, c, t, 0, stack, here.callStack + [Frame(here.sentence, here.ip + 1, hidden)]);
    var out := RunFrom(lib, c, t, 0, stack).value;
    CallRuns(lib, here, stack, hidden, t, out, m);
    assert hidden == [] ==> out + hidden == out;
    n := m + 2;
  }

  function Restored(out: seq<Value>, hidden: seq<Value>): seq<Value> {
    if hidden == [] then out else out + hidden
  }
}
