/** The machine, one instruction at a time, and what it comes to on a library that has stack effects. */
module Machine {
  import opened Wrappers
  import opened Values
  import opened Prims
  import opened Terms
  import opened Libraries

  /** A pending return: where to resume, and what `dip` hid from the callee. */
  datatype Frame = Frame(sentence: SentenceIndex, ip: nat, hidden: seq<Value>)

  datatype State = State(stack: seq<Value>, callStack: seq<Frame>, sentence: SentenceIndex, ip: nat)

  datatype Status =
    | Running(state: State)
    | Finished(stack: seq<Value>)
    | Underflow
    | InvalidSentence

  // ---- one instruction on the stack ----

  /** A prim on the top of the stack, if the stack is deep enough for it. */
  function LocalStep(prim: Prim, stack: seq<Value>): Option<seq<Value>> {
    var n := prim.Effect().inputs;
    if |stack| < n then None
    else Some(stack[..|stack| - n] + Answer(prim, stack[|stack| - n..]))
  }

  function Enter(c: State, stack: seq<Value>, hidden: seq<Value>, target: SentenceIndex): Status {
    Running(State(stack, c.callStack + [Frame(c.sentence, c.ip + 1, hidden)], target, 0))
  }

  function Continue(c: State, stack: Option<seq<Value>>): Status {
    match stack
    case Some(s) => Running(c.(stack := s, ip := c.ip + 1))
    case None => Underflow
  }

  /** One turn of the machine: an instruction, or a return. */
  function Step(lib: Library, c: State): Status {
    if c.sentence >= |lib.sentences| then InvalidSentence
    else if c.ip >= |lib.sentences[c.sentence]| then
      if c.callStack == [] then Finished(c.stack)
      else
        var frame := c.callStack[|c.callStack| - 1];
        Running(State(c.stack + frame.hidden, c.callStack[..|c.callStack| - 1], frame.sentence, frame.ip))
    else
      var top := |c.stack| - 1;
      match lib.sentences[c.sentence][c.ip]
      case Local(prim) => Continue(c, LocalStep(prim, c.stack))
      case Drop => Continue(c, if top < 0 then None else Some(c.stack[..top]))
      case Copy => Continue(c, if top < 0 then None else Some(c.stack + [c.stack[top]]))
      case Jump(t) => Enter(c, c.stack, [], t)
      case Dip(t) => if top < 0 then Underflow else Enter(c, c.stack[..top], [c.stack[top]], t)
      case Branch(t, f) =>
        if top < 0 then Underflow
        else Enter(c, c.stack[..top], [], if c.stack[top].Truthy() then t else f)
  }

  /** The machine after `n` turns; once it has stopped it stays where it stopped. */
  function RunFor(lib: Library, c: State, n: nat): Status
    decreases n
  {
    if n == 0 then Running(c)
    else
      match Step(lib, c)
      case Running(d) => RunFor(lib, d, n - 1)
      case stopped => stopped
  }

  lemma {:induction false} RunForAdds(lib: Library, c: State, d: State, m: nat, n: nat)
    requires RunFor(lib, c, m) == Running(d)
    ensures RunFor(lib, c, m + n) == RunFor(lib, d, n)
    decreases m
  {
    if m > 0 {
      RunForAdds(lib, Step(lib, c).state, d, m - 1, n);
    }
  }

  /** The turn after `n` running ones is the next step. */
  lemma {:induction false} RunForNext(lib: Library, c: State, d: State, n: nat)
    requires RunFor(lib, c, n) == Running(d)
    ensures RunFor(lib, c, n + 1) == Step(lib, d)
    decreases n
  {
    RunForAdds(lib, c, d, n, 1);
  }

  predicate AtInstruction(lib: Library, c: State) {
    c.sentence < |lib.sentences| && c.ip < |lib.sentences[c.sentence]|
  }

  /** How many of the first `n` turns were instructions, the rest being returns. */
  function Spent(lib: Library, c: State, n: nat): nat
    decreases n
  {
    if n == 0 then 0
    else
      (if AtInstruction(lib, c) then 1 else 0) + match Step(lib, c) case Running(d) => Spent(lib, d, n - 1) case _ => 0
  }

  lemma {:induction false} SpentNext(lib: Library, c: State, d: State, n: nat)
    requires RunFor(lib, c, n) == Running(d)
    ensures Spent(lib, c, n + 1) == Spent(lib, c, n) + if AtInstruction(lib, d) then 1 else 0
    decreases n
  {
    if n > 0 {
      SpentNext(lib, Step(lib, c).state, d, n - 1);
    }
  }

  /** After `n` turns the machine has come to this, `spent` instructions later. */
  predicate ComesTo(lib: Library, c: State, n: nat, status: Status, spent: nat) {
    RunFor(lib, c, n) == status && Spent(lib, c, n) == spent
  }

  // ---- the machine itself ----

  datatype Fault = StackUnderflow | InvalidSentenceIndex | GasLimitExceeded

  class VM {
    const library: Library
    var stack: seq<Value>
    var callStack: seq<Frame>
    var gasLimit: Option<nat>
    var stepsExecuted: nat

    constructor (library: Library)
      ensures this.library == library && stack == [] && callStack == [] && gasLimit == None && stepsExecuted == 0
    {
      this.library, stack, callStack, gasLimit, stepsExecuted := library, [], [], None, 0;
    }

    /** One instruction, `ip` already past it: the stack changed, or a callee entered. */
    method Perform(instruction: Instruction, currentSentence: SentenceIndex, ip: nat)
      returns (fault: Option<Fault>, nextSentence: SentenceIndex, nextIp: nat)
      requires currentSentence < |library.sentences| && 0 < ip <= |library.sentences[currentSentence]|
      requires instruction == library.sentences[currentSentence][ip - 1]
      modifies `stack, `callStack
      ensures fault == None || fault == Some(StackUnderflow)
      ensures Step(library, old(State(stack, callStack, currentSentence, ip - 1)))
        == if fault.None? then Running(State(stack, callStack, nextSentence, nextIp)) else Underflow
    {
      fault, nextSentence, nextIp := None, currentSentence, ip;
      match instruction {
        case Local(prim) =>
          var inputs := prim.Effect().inputs;
          if |stack| < inputs { fault := Some(StackUnderflow); return; }
          stack := stack[..|stack| - inputs] + Answer(prim, stack[|stack| - inputs..]);
        case Drop =>
          if stack == [] { fault := Some(StackUnderflow); return; }
          stack := stack[..|stack| - 1];
        case Copy =>
          if stack == [] { fault := Some(StackUnderflow); return; }
          stack := stack + [stack[|stack| - 1]];
        case Jump(target) =>
          callStack := callStack + [Frame(currentSentence, ip, [])];
          nextSentence, nextIp := target, 0;
        case Dip(target) =>
          if stack == [] { fault := Some(StackUnderflow); return; }
          callStack := callStack + [Frame(currentSentence, ip, [stack[|stack| - 1]])];
          stack := stack[..|stack| - 1];
          nextSentence, nextIp := target, 0;
        case Branch(ifTrue, ifFalse) =>
          if stack == [] { fault := Some(StackUnderflow); return; }
          var cond := stack[|stack| - 1];
          stack := stack[..|stack| - 1];
          callStack := callStack + [Frame(currentSentence, ip, [])];
          nextSentence, nextIp := if cond.Truthy() then ifTrue else ifFalse, 0;
      }
    }

    /**
     * Runs from the start of a sentence until the call stack is empty. With no gas limit it is only
     * called where the machine stops, `turns` being as many turns as that takes.
     */
    method Execute(start: SentenceIndex, ghost turns: nat) returns (r: Result<(), Fault>)
      requires gasLimit.None? ==> !RunFor(library, State(stack, callStack, start, 0), turns).Running?
      modifies this
      ensures gasLimit == old(gasLimit)
      ensures r.Ok? ==> callStack == []
      ensures r.Ok? ==>
        exists n :: ComesTo(library, old(State(stack, callStack, start, 0)), n, Finished(stack), stepsExecuted)
      ensures r == Err(StackUnderflow) ==>
        exists n :: ComesTo(library, old(State(stack, callStack, start, 0)), n, Underflow, stepsExecuted)
      ensures r == Err(InvalidSentenceIndex) ==>
        exists n :: ComesTo(library, old(State(stack, callStack, start, 0)), n, InvalidSentence, stepsExecuted)
      ensures r == Err(GasLimitExceeded) ==> gasLimit == Some(stepsExecuted) && exists n: nat, c: State ::
        && c.stack == stack && c.callStack == callStack && AtInstruction(library, c)
        && ComesTo(library, old(State(stack, callStack, start, 0)), n, Running(c), stepsExecuted)
      ensures gasLimit.Some? ==> stepsExecuted <= gasLimit.value
    {
      ghost var origin := State(stack, callStack, start, 0);
      ghost var n := 0;
      var currentSentence: nat, ip: nat := start, 0;
      stepsExecuted := 0;
      while true
        invariant gasLimit == old(gasLimit)
        invariant gasLimit.Some? ==> stepsExecuted <= gasLimit.value
        invariant gasLimit.None? ==> n <= turns
        invariant ComesTo(library, origin, n, Running(State(stack, callStack, currentSentence, ip)), stepsExecuted)
        decreases if gasLimit.None? then turns - n else gasLimit.value - stepsExecuted, |callStack|
      {
        ghost var here := State(stack, callStack, currentSentence, ip);
        RunForNext(library, origin, here, n);
        SpentNext(library, origin, here, n);
        assert gasLimit.None? ==> n < turns;
        ghost var turn := n;
        n := n + 1;
        ghost var spent := stepsExecuted + if AtInstruction(library, here) then 1 else 0;
        assert ComesTo(library, origin, n, Step(library, here), spent);
        if currentSentence >= |library.sentences| {
          return Err(InvalidSentenceIndex);
        }
        var sentence := library.sentences[currentSentence];
        if ip >= |sentence| {
          if callStack == [] {
            return Ok(());
          }
          var frame := callStack[|callStack| - 1];
          callStack := callStack[..|callStack| - 1];
          stack := stack + frame.hidden;
          currentSentence := frame.sentence;
          ip := frame.ip;
          continue;
        }
        if gasLimit.Some? && stepsExecuted >= gasLimit.value {
          assert ComesTo(library, origin, turn, Running(here), stepsExecuted);
          return Err(GasLimitExceeded);
        }
        stepsExecuted := stepsExecuted + 1;
        var fault;
        fault, currentSentence, ip := Perform(sentence[ip], currentSentence, ip + 1);
        if fault.Some? {
          return Err(fault.value);
        }
      }
      r := Ok(());
    }
  }
}
