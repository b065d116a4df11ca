/** The written language: instructions that name a depth, blocks written in place, and `?`. */
module Surface {
  import opened Values
  import opened Prims
  import opened Terms

  /** What a path in a type check names. */
  datatype Item = Sentence(s: SentenceIndex) | Const(v: Value)

  datatype Target = Label(s: SentenceIndex) | Inline(body: seq<Word>)

  /** One written instruction, its paths resolved. */
  datatype Word =
    | Plain(prim: Prim)
    | Drop(depth: nat)
    | Pick(depth: nat)
    | Roll(depth: nat)
    | Jump(target: Target)
    | Dip(depth: nat, target: Target)
    | Branch(ifTrue: Target, ifFalse: Target)
    | Try
    | Check(item: Item)

  type Body = seq<Word>

  /** What the words of a program mean relative to: its named sentences, and the two tags `?` reads. */
  datatype Program = Program(bodies: seq<Body>, nets: seq<int>, ok: Value, err: Value)

  /** `Spent` is not an answer: the run asked for more nested calls than it was given. */
  datatype Outcome = Done(stack: seq<Value>) | Short | Spent

  // ---- how much taller a body leaves the stack ----

  function NetOfWord(nets: seq<int>, word: Word): int
    decreases word
  {
    match word
    case Plain(prim) => prim.Effect().Net()
    case Drop(_) => -1
    case Pick(_) => 1
    case Roll(_) => 0
    case Jump(t) => NetOfTarget(nets, t)
    case Dip(_, t) => NetOfTarget(nets, t)
    case Branch(t, _) => NetOfTarget(nets, t) - 1
    case Try => 0
    case Check(Sentence(s)) => if s < |nets| then nets[s] else 0
    case Check(Const(_)) => 0
  }

  function NetOfTarget(nets: seq<int>, target: Target): int
    decreases target
  {
    match target
    case Label(s) => if s < |nets| then nets[s] else 0
    case Inline(body) => NetOf(nets, body)
  }

  function NetOf(nets: seq<int>, body: Body): int
    decreases body
  {
    if body == [] then 0 else NetOfWord(nets, body[0]) + NetOf(nets, body[1..])
  }

  // ---- bodies every way through which leaves one height ----

  /** Only labels there are nets for, and the arms of every branch, however deep, change the height alike. */
  predicate Level(nets: seq<int>, body: Body)
    decreases body
  {
    forall k | 0 <= k < |body| :: LevelWord(nets, body[k])
  }

  predicate LevelWord(nets: seq<int>, word: Word)
    decreases word
  {
    match word
    case Jump(t) => LevelTarget(nets, t)
    case Dip(_, t) => LevelTarget(nets, t)
    case Branch(t, f) => LevelTarget(nets, t) && LevelTarget(nets, f) && NetOfTarget(nets, t) == NetOfTarget(nets, f)
    case Check(Sentence(s)) => s < |nets|
    case _ => true
  }

  predicate LevelTarget(nets: seq<int>, target: Target)
    decreases target
  {
    match target
    case Label(s) => s < |nets|
    case Inline(body) => Level(nets, body)
  }

  /** What follows each `?` in its block, in the order the early returns are recorded: an inner one first. */
  function TailsOf(body: Body): seq<Body>
    decreases body
  {
    if body == [] then []
    else if body[0].Try? then TailsOf(body[1..]) + [body[1..]]
    else TailsOfWord(body[0]) + TailsOf(body[1..])
  }

  function TailsOfWord(word: Word): seq<Body>
    decreases word
  {
    match word
    case Jump(t) => TailsOfTarget(t)
    case Dip(_, t) => TailsOfTarget(t)
    case Branch(t, f) => TailsOfTarget(t) + TailsOfTarget(f)
    case _ => []
  }

  function TailsOfTarget(target: Target): seq<Body>
    decreases target
  {
    match target
    case Label(_) => []
    case Inline(body) => TailsOf(body)
  }

  lemma {:induction false} TailsJoin(a: Body, b: Body)
    requires Straight(a)
    ensures TailsOf(a + b) == TailsOf(a) + TailsOf(b)
    decreases |a|
  {
    if a == [] {
      assert a + b == b;
    } else {
      assert (a + b)[0] == a[0] && (a + b)[1..] == a[1..] + b;
      TailsJoin(a[1..], b);
    }
  }

  // ---- what a body does to a stack ----

  datatype Reach = Copying | Moving | Discarding

  /** `pick d`, `roll d` and `drop d` on the value with `d` values above it. `roll 0` asks for nothing. */
  function ReachOn(kind: Reach, d: nat, stack: seq<Value>): Outcome {
    if kind == Moving && d == 0 then Done(stack)
    else if |stack| <= d then Short
    else
      var i := |stack| - 1 - d;
      match kind
      case Copying => Done(stack + [stack[i]])
      case Moving => Done(stack[..i] + stack[i + 1..] + [stack[i]])
      case Discarding => Done(stack[..i] + stack[i + 1..])
  }

  /** A result is a pair whose second half is a tag. */
  predicate IsPair(v: Value) {
    v.Tuple? && |v.elements| == 2
  }

  /** What an early return carries out: the payload of a result, or the value that is not one. */
  function Payload(v: Value): Value {
    if IsPair(v) then v.elements[0] else v
  }

  function OnPrim(prim: Prim, stack: seq<Value>): Outcome {
    var n := prim.Effect().inputs;
    if |stack| < n then Short else Done(stack[..|stack| - n] + Answer(prim, stack[|stack| - n..]))
  }

  function Above(outcome: Outcome, hidden: seq<Value>): Outcome {
    match outcome
    case Done(s) => Done(s + hidden)
    case stopped => stopped
  }

  function Enter(p: Program, target: Target, stack: seq<Value>, fuel: nat): Outcome
    decreases fuel, target
  {
    match target
    case Label(s) => if fuel == 0 || s >= |p.bodies| then Spent else Means(p, p.bodies[s], stack, fuel - 1)
    case Inline(body) => Means(p, body, stack, fuel)
  }

  function WordMeans(p: Program, word: Word, stack: seq<Value>, fuel: nat): Outcome
    requires !word.Try?
    decreases fuel, word
  {
    var top := |stack| - 1;
    match word
    case Plain(prim) => OnPrim(prim, stack)
    case Drop(d) => ReachOn(Discarding, d, stack)
    case Pick(d) => ReachOn(Copying, d, stack)
    case Roll(d) => ReachOn(Moving, d, stack)
    case Jump(t) => Enter(p, t, stack, fuel)
    case Dip(d, t) =>
      if |stack| < d then Short else Above(Enter(p, t, stack[..|stack| - d], fuel), stack[|stack| - d..])
    case Branch(t, f) =>
      if top < 0 then Short
      else if stack[top].Truthy() then Enter(p, t, stack[..top], fuel) else Enter(p, f, stack[..top], fuel)
    case Check(Sentence(s)) =>
      if fuel == 0 || s >= |p.bodies| then Spent else Means(p, p.bodies[s], stack, fuel - 1)
    case Check(Const(v)) => if top < 0 then Short else Done(stack[..top] + [Bool(stack[top] == v)])
  }

  /**
   * A body, word by word. `?` on a result tagged `ok` goes on with what the result carried; on anything
   * else it is the end of the body, and leaves one error as deep as finishing would have left the stack.
   */
  function Means(p: Program, body: Body, stack: seq<Value>, fuel: nat): Outcome
    decreases fuel, body
  {
    if body == [] then Done(stack)
    else if body[0].Try? then
      if stack == [] then Short
      else
        var (below, v) := (stack[..|stack| - 1], stack[|stack| - 1]);
        if IsPair(v) && v.elements[1] == p.ok then Means(p, body[1..], below + [v.elements[0]], fuel)
        else EarlyReturn(p, -NetOf(p.nets, body[1..]), below, v)
    else
      match WordMeans(p, body[0], stack, fuel)
      case Done(next) => Means(p, body[1..], next, fuel)
      case stopped => stopped
  }

  function EarlyReturn(p: Program, drops: int, below: seq<Value>, v: Value): Outcome {
    if |below| < drops then Short
    else Done(below[..|below| - if drops < 0 then 0 else drops] + [Value.Tuple([Payload(v), p.err])])
  }

  // ---- laws of movement ----

  predicate Straight(body: Body) {
    forall k | 0 <= k < |body| :: !body[k].Try?
  }

  /** One body after another, where the first cannot leave early. */
  lemma {:induction false} MeansJoins(p: Program, a: Body, b: Body, stack: seq<Value>, fuel: nat)
    requires Straight(a)
    ensures Means(p, a + b, stack, fuel)
      == match Means(p, a, stack, fuel) case Done(next) => Means(p, b, next, fuel) case stopped => stopped
    decreases |a|
  {
    hide WordMeans;
    if a == [] {
      assert a + b == b;
    } else {
      assert (a + b)[1..] == a[1..] + b && (a + b)[0] == a[0];
      if WordMeans(p, a[0], stack, fuel).Done? {
        MeansJoins(p, a[1..], b, WordMeans(p, a[0], stack, fuel).stack, fuel);
      }
    }
  }

  lemma OneWord(p: Program, word: Word, stack: seq<Value>, fuel: nat)
    requires !word.Try?
    ensures Means(p, [word], stack, fuel) == WordMeans(p, word, stack, fuel)
  {
    assert [word][1..] == [];
  }

  function Rolls(d: nat, times: nat): Body {
    seq(times, _ => Word.Roll(d))
  }

  /** One roll: the value under `d` others comes out on top of them. */
  lemma RollMeans(p: Program, d: nat, below: seq<Value>, x: Value, above: seq<Value>, fuel: nat)
    requires |above| == d
    ensures Means(p, [Word.Roll(d)], below + [x] + above, fuel) == Done(below + above + [x])
  {
    var stack := below + [x] + above;
    OneWord(p, Word.Roll(d), stack, fuel);
    assert stack[..|below|] == below && stack[|below|] == x && stack[|below| + 1..] == above;
    if d == 0 {
      assert stack == below + above + [x];
    }
  }

  /** Rolling `k` times brings the `k` deepest of the `d + 1` in reach to the top, in the order they were in. */
  lemma {:induction false} RollsTurn(p: Program, d: nat, k: nat, low: seq<Value>, xs: seq<Value>, fuel: nat)
    requires |xs| == d + 1 && k <= d + 1
    ensures Means(p, Rolls(d, k), low + xs, fuel) == Done(low + xs[k..] + xs[..k])
  {
    if k == 0 {
      assert low + xs[0..] + xs[..0] == low + xs;
    } else {
      hide Means;
      RollsTurn(p, d, k - 1, low, xs, fuel);
      assert Rolls(d, k) == Rolls(d, k - 1) + [Word.Roll(d)];
      MeansJoins(p, Rolls(d, k - 1), [Word.Roll(d)], low + xs, fuel);
      var x, others := xs[k - 1], xs[k..] + xs[..k - 1];
      assert low + xs[k - 1..] + xs[..k - 1] == low + [x] + others;
      RollMeans(p, d, low, x, others, fuel);
      assert low + others + [x] == low + xs[k..] + xs[..k];
    }
  }

  /** Rolling at depth `d` as often as there are values in reach leaves the stack as it was. */
  lemma RollingAllTheWayRound(p: Program, d: nat, stack: seq<Value>, fuel: nat)
    requires |stack| > d
    ensures Means(p, Rolls(d, d + 1), stack, fuel) == Done(stack)
  {
    var low, xs := stack[..|stack| - 1 - d], stack[|stack| - 1 - d..];
    assert low + xs == stack;
    RollsTurn(p, d, d + 1, low, xs, fuel);
    assert low + xs[d + 1..] + xs[..d + 1] == stack;
  }

  /** The body replaces its `args` by `results` whatever lies beneath. */
  ghost predicate Computes(p: Program, body: Body, args: seq<Value>, results: seq<Value>, fuel: nat) {
    forall below: seq<Value> :: Means(p, body, below + args, fuel) == Done(below + results)
  }

  /** A computation framed under `d` values, its results rolled up, is its operands rolled up and the computation. */
  lemma FramedIsRolled(
    p: Program, x: Body, d: nat, low: seq<Value>, args: seq<Value>, results: seq<Value>, high: seq<Value>, fuel: nat)
    requires |high| == d && Computes(p, x, args, results, fuel)
    ensures Means(p, [Word.Dip(d, Inline(x))] + Rolls(Depth(d, |results|), |results|), low + args + high, fuel)
      == Means(p, Rolls(Depth(d, |args|), |args|) + x, low + args + high, fuel)
      == Done(low + high + results)
  {
    hide Means; hide WordMeans;
    var stack := low + args + high;
    var framed := Word.Dip(d, Inline(x));
    assert stack[..|stack| - d] == low + args && stack[|stack| - d..] == high;
    FrameMeans(p, d, x, low + args, high, fuel);
    assert Means(p, x, low + args, fuel) == Done(low + results);
    OneWord(p, framed, stack, fuel);
    MeansJoins(p, [framed], Rolls(Depth(d, |results|), |results|), stack, fuel);
    BroughtUp(p, d, low, results, high, fuel);
    MeansJoins(p, Rolls(Depth(d, |args|), |args|), x, stack, fuel);
    BroughtUp(p, d, low, args, high, fuel);
    assert Means(p, x, (low + high) + args, fuel) == Done((low + high) + results);
  }

  /** `roll (d + n - 1)` is what brings up the deepest of `n` values under `d` others. */
  function Depth(d: nat, n: nat): nat {
    if d + n == 0 then 0 else d + n - 1
  }

  lemma FrameMeans(p: Program, d: nat, x: Body, below: seq<Value>, hidden: seq<Value>, fuel: nat)
    requires |hidden| == d
    ensures WordMeans(p, Word.Dip(d, Inline(x)), below + hidden, fuel) == Above(Means(p, x, below, fuel), hidden)
  {
    var stack := below + hidden;
    assert stack[..|stack| - d] == below && stack[|stack| - d..] == hidden;
  }

  lemma BroughtUp(p: Program, d: nat, low: seq<Value>, xs: seq<Value>, high: seq<Value>, fuel: nat)
    requires |high| == d
    ensures Means(p, Rolls(Depth(d, |xs|), |xs|), low + xs + high, fuel) == Done(low + high + xs)
  {
    if xs == [] {
      assert low + xs + high == low + high + xs;
    } else {
      RollsTurn(p, Depth(d, |xs|), |xs|, low, xs + high, fuel);
      assert low + (xs + high) == low + xs + high;
      assert (xs + high)[|xs|..] == high && (xs + high)[..|xs|] == xs;
    }
  }

  /** `pick d` is the copy made where the value lies, rolled up. */
  lemma PickIsAFramedCopy(p: Program, d: nat, stack: seq<Value>, fuel: nat)
    ensures Means(p, [Word.Pick(d)], stack, fuel)
      == Means(p, [Word.Dip(d, Inline([Word.Pick(0)])), Word.Roll(d)], stack, fuel)
  {
    hide Means;
    var copy := [Word.Pick(0)];
    OneWord(p, Word.Pick(d), stack, fuel);
    assert [Word.Dip(d, Inline(copy)), Word.Roll(d)] == [Word.Dip(d, Inline(copy))] + [Word.Roll(d)];
    MeansJoins(p, [Word.Dip(d, Inline(copy))], [Word.Roll(d)], stack, fuel);
    OneWord(p, Word.Dip(d, Inline(copy)), stack, fuel);
    if |stack| >= d {
      var below, hidden := stack[..|stack| - d], stack[|stack| - d..];
      assert below + hidden == stack;
      FrameMeans(p, d, copy, below, hidden, fuel);
      OneWord(p, Word.Pick(0), below, fuel);
      if |below| > 0 {
        var x := below[|below| - 1];
        RollMeans(p, d, below, x, hidden, fuel);
      }
    }
  }
}
