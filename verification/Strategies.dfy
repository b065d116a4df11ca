/** Running a strategy: each step acts on one goal, and what closes a goal proves it. */
module Strategies {
  import opened Wrappers
  import opened Terms
  import opened Spines
  import opened Libraries
  import opened Lowering
  import opened Lowerers
  import opened Goals
  import opened Readings
  import opened Tactics
  import Forms = Normalize
  import Judge

  // ---- closing more than was asked ----

  lemma SettledFor(lib: Library, c: Certificate, some: bool, all: bool, a: Tree, b: Tree)
    requires Certifies(lib, c) && (some ==> all) && Settled(lib, c, some, a, b)
    ensures Settled(lib, c, all, a, b)
  {
  }

  lemma SettledSwaps(lib: Library, c: Certificate, inlined: bool, a: Tree, b: Tree)
    requires Certifies(lib, c) && Settled(lib, c, inlined, a, b)
    ensures Settled(lib, c, inlined, b, a)
  {
    forall calls: Interp | inlined ==> calls == LibraryCalls(lib, c) ensures Agree(b, a, calls) {
      assert Agree(a, b, calls);
    }
  }

  lemma NamesMiddle(terms: seq<Term>, a: seq<TermIndex>, x: seq<Tree>, p: nat, q: nat)
    requires Ordered(terms) && Names(terms, a, x) && p + q <= |a|
    ensures Names(terms, Middle(a, p, q), Middle(x, p, q))
  {
  }

  lemma {:induction false} SpineHonest(lib: Library, c: Certificate, t: Tree)
    requires Honest(lib, c, t)
    ensures forall part | part in Spine(t) :: Honest(lib, c, part)
  {
    match t
    case Compose(a, b) => SpineHonest(lib, c, a); SpineHonest(lib, c, b);
    case _ =>
  }

  lemma {:induction false} FoldedHonest(lib: Library, c: Certificate, acc: Tree, parts: seq<Tree>)
    requires Honest(lib, c, acc) && forall part | part in parts :: Honest(lib, c, part)
    ensures Honest(lib, c, Folded(acc, parts))
    decreases |parts|
  {
    if parts != [] {
      FoldedHonest(lib, c, Tree.Compose(acc, parts[0]), parts[1..]);
    }
  }

  /** Proves goals against one library, one that has stack effects throughout. */
  class Prover {
    const library: Library
    ghost const c: Certificate

    ghost predicate Valid() {
      library.Closed() && Accepts(library, c)
    }

    constructor (library: Library, ghost c: Certificate)
      requires library.Closed() && Accepts(library, c)
      ensures Valid() && this.library == library && this.c == c
    {
      this.library, this.c := library, c;
    }

    /** A well-formed term whose calls carry the arities their sentences have. */
    ghost predicate Sound(t: Tree) {
      t.Ok() && Honest(library, c, t)
    }

    ghost predicate Holds(ctx: Context, i: TermIndex)
      reads ctx
      requires ctx.Valid()
    {
      ctx.Has(i) && Sound(ctx.At(i))
    }

    ghost predicate Fits(ctx: Context, goal: Goal)
      reads ctx
      requires ctx.Valid()
    {
      && Holds(ctx, goal.lhs) && Holds(ctx, goal.rhs)
      && ctx.At(goal.lhs).Effect() == ctx.At(goal.rhs).Effect()
    }

    ghost predicate Readable(ctx: Context, s: Strategy)
      reads ctx
      requires ctx.Valid()
    {
      forall w | w in Stones(s) :: Holds(ctx, w)
    }

    /** The claim of a goal, settled by a strategy that may or may not spend definitions. */
    ghost predicate Proved(ctx: Context, s: Strategy, goal: Goal)
      reads ctx
      requires Valid() && ctx.Valid() && Fits(ctx, goal)
    {
      Settled(library, c, Spends(s), ctx.At(goal.lhs), ctx.At(goal.rhs))
    }

    /** Two terms padded to one arity. */
    method Align(ctx: Context, l: TermIndex, r: TermIndex) returns (goal: Goal)
      requires ctx.Valid() && Holds(ctx, l) && Holds(ctx, r)
      requires ctx.At(l).Effect().Net() == ctx.At(r).Effect().Net()
      modifies ctx
      ensures ctx.Grew() && Fits(ctx, goal)
      ensures (ctx.At(goal.lhs), ctx.At(goal.rhs)) == Aligned(old(ctx.At(l)), old(ctx.At(r)))
    {
      hide Tree.Effect; hide Tree.Ok; hide Honest;
      var n, m := ctx.EffectAt(l).inputs, ctx.EffectAt(r).inputs;
      if n < m {
        WidenedSound(ctx.At(l), m - n);
        var wide := ctx.Under(l, m - n);
        goal := Goal(wide, r);
      } else {
        WidenedSound(ctx.At(r), n - m);
        var wide := ctx.Under(r, n - m);
        goal := Goal(l, wide);
      }
    }

    lemma WidenedSound(t: Tree, n: nat)
      requires Sound(t)
      ensures Sound(Widened(t, n))
    {
    }

    // ---- running a strategy ----

    /** On two sides that only wire, push, call and branch, the answer is whether nothing tells them apart. */
    ghost predicate Decided(ctx: Context, goal: Goal, r: Outcome)
      reads ctx
      requires ctx.Valid() && Fits(ctx, goal)
    {
      var (l, r') := (ctx.At(goal.lhs), ctx.At(goal.rhs));
      Opaque(l) && Opaque(r') ==>
        r == (if Alike(l, r') then Closed else Stuck)
        && (Straight(l) && Straight(r') ==> r == if Same(l, r') then Closed else Stuck)
    }

    /** Where the answer of a strategy to a goal is known beforehand, it is this one. */
    ghost predicate Foretold(ctx: Context, s: Strategy, goal: Goal, r: Outcome)
      reads ctx
      requires ctx.Valid() && ctx.Has(goal.lhs) && ctx.Has(goal.rhs)
    {
      Answer(library, c, ctx.terms, s, ctx.At(goal.lhs), ctx.At(goal.rhs)) in {None, Some(r)}
    }

    /** One strategy on one goal: whatever it closes is so. */
    method RunSteps(ctx: Context, strategy: Strategy, goal: Goal, fuel: nat) returns (r: Outcome)
      requires Valid() && ctx.Valid() && Fits(ctx, goal) && Readable(ctx, strategy)
      modifies ctx
      ensures ctx.Grew()
      ensures r == Closed ==> old(Proved(ctx, strategy, goal))
      ensures old(Foretold(ctx, strategy, goal, r))
      ensures strategy == DefaultStrategy() ==> old(Decided(ctx, goal, r))
      decreases Size(strategy), 2
    {
      hide Certifies; hide Agree; hide Honest; hide Tree.Effect; hide Tree.Ok;
      var same := ctx.Equal(goal.lhs, goal.rhs);
      if same {
        TriviallySettled(ctx.At(goal.lhs), Spends(strategy));
        return Closed;
      }
      if strategy == [] {
        return Stuck;
      }
      var rest := strategy[1..];
      match strategy[0] {
        case Diagram =>
          r := Normalize(ctx, goal, Spends(strategy), fuel);
        case Exact =>
          r := Stuck;
        case Via(waypoint, left, right) =>
          r := Cut(ctx, strategy, goal, fuel);
        case Peel =>
          r := Narrow(ctx, strategy, goal, fuel);
        case Symm =>
          r := RunSteps(ctx, rest, Goal(goal.rhs, goal.lhs), fuel);
          if r == Closed {
            SettledSwaps(library, c, Spends(rest), old(ctx.At(goal.rhs)), old(ctx.At(goal.lhs)));
          }
        case Inline(only) =>
          r := Open(ctx, strategy, goal, fuel);
        case Descend(thenArm, elseArm) =>
          r := DescendArms(ctx, strategy, goal, fuel);
      }
    }

    lemma TriviallySettled(t: Tree, inlined: bool)
      requires Valid() && t.Ok()
      ensures Settled(library, c, inlined, t, t)
    {
    }

    /** Asks the diagram engine; only an answer of one diagram closes the goal. */
    method Normalize(ctx: Context, goal: Goal, ghost spends: bool, fuel: nat) returns (r: Outcome)
      requires Valid() && ctx.Valid() && Fits(ctx, goal)
      ensures r == Closed ==> Settled(library, c, spends, ctx.At(goal.lhs), ctx.At(goal.rhs))
      ensures DiagramAnswer(ctx.At(goal.lhs), ctx.At(goal.rhs)) in {None, Some(r)} && Decided(ctx, goal, r)
    {
      hide Alike; hide Same; hide Opaque; hide Straight; hide Forms.NoEqual; hide Judge.Parallel;
      hide Judge.BothFormed; hide Judge.Compared; hide Judge.Apart; hide Judge.ChooseAlike;
      var one, _, _, _ := Judge.OneDiagram(ctx, goal.lhs, goal.rhs, fuel);
      NeverOpened(library, c, ctx.At(goal.lhs), ctx.At(goal.rhs));
      r := if one.None? then OutOfFuel else if one.value then Closed else Stuck;
      if r == Closed {
        SettledFor(library, c, false, spends, ctx.At(goal.lhs), ctx.At(goal.rhs));
      }
    }

    /** Two goals through a waypoint, independent from here; proving both proves the whole. */
    method Cut(ctx: Context, strategy: Strategy, goal: Goal, fuel: nat) returns (r: Outcome)
      requires Valid() && ctx.Valid() && Fits(ctx, goal) && Readable(ctx, strategy)
      requires strategy != [] && strategy[0].Via? && ctx.At(goal.lhs) != ctx.At(goal.rhs)
      modifies ctx
      ensures ctx.Grew()
      ensures r == Closed ==> old(Proved(ctx, strategy, goal))
      ensures old(Foretold(ctx, strategy, goal, r))
      decreases Size(strategy), 1
    {
      hide Certifies; hide Agree; hide Honest; hide Tree.Effect; hide Tree.Ok; hide Stones; hide Spends; hide Size;
      hide StepSize; hide SideSize; hide TreeAt; hide Ordered; hide Answer; hide HalfAnswer; hide Aligned;
      var Via(waypoint, left, right) := strategy[0];
      SidesWithin(strategy);
      WaypointMentioned(strategy);
      assert Holds(ctx, waypoint);
      ghost var (l, w, rt) := (ctx.At(goal.lhs), ctx.At(waypoint), ctx.At(goal.rhs));
      CutAnswer(library, c, ctx.terms, strategy, l, rt);
      if ctx.EffectAt(waypoint).Net() != ctx.EffectAt(goal.lhs).Net() {
        return Stuck;
      }
      HalfReads(ctx, left);
      HalfReads(ctx, right);
      r := Half(ctx, left, goal.lhs, waypoint, fuel);
      if r != Closed {
        return;
      }
      HalfAnswerStays(library, c, old(ctx.terms), ctx.terms, right, w, rt);
      r := Half(ctx, right, waypoint, goal.rhs, fuel);
      if r == Closed {
        SettledFor(library, c, Spends(WrittenOr(left, DefaultStrategy())), Spends(strategy), Aligned(l, w).0,
          Aligned(l, w).1);
        SettledFor(library, c, Spends(WrittenOr(right, DefaultStrategy())), Spends(strategy), Aligned(w, rt).0,
          Aligned(w, rt).1);
        CutSettles(l, w, rt, Spends(strategy));
      }
    }

    /** What can be read of a strategy is in the arena. */
    lemma ReadableReads(ctx: Context, s: Strategy)
      requires ctx.Valid() && Readable(ctx, s)
      ensures Reads(ctx.terms, s)
    {
      hide Stones; hide Honest; hide Tree.Ok;
    }

    lemma HalfReads(ctx: Context, s: Side)
      requires ctx.Valid() && Readable(ctx, WrittenOr(s, DefaultStrategy()))
      ensures Reads(ctx.terms, WrittenOr(s, DefaultStrategy()))
    {
      ReadableReads(ctx, WrittenOr(s, DefaultStrategy()));
    }

    /** One half of a cut, its shallower side padded. */
    method Half(ctx: Context, s: Side, a: TermIndex, b: TermIndex, fuel: nat) returns (r: Outcome)
      requires Valid() && ctx.Valid() && Holds(ctx, a) && Holds(ctx, b)
      requires ctx.At(a).Effect().Net() == ctx.At(b).Effect().Net() && Readable(ctx, WrittenOr(s, DefaultStrategy()))
      modifies ctx
      ensures ctx.Grew()
      ensures r == Closed ==> old(Settled(library, c, Spends(WrittenOr(s, DefaultStrategy())),
        Aligned(ctx.At(a), ctx.At(b)).0, Aligned(ctx.At(a), ctx.At(b)).1))
      ensures old(HalfAnswer(library, c, ctx.terms, s, ctx.At(a), ctx.At(b)) in {None, Some(r)})
      decreases Size(WrittenOr(s, DefaultStrategy())), 3
    {
      hide Certifies; hide Agree; hide Honest; hide Tree.Effect; hide Tree.Ok; hide Stones; hide Spends; hide Size;
      hide TreeAt; hide Ordered; hide Answer; hide Aligned;
      HalfReads(ctx, s);
      ghost var (x, y) := (ctx.At(a), ctx.At(b));
      var sub := Align(ctx, a, b);
      HalfAnswerStays(library, c, old(ctx.terms), ctx.terms, s, x, y);
      r := RunSteps(ctx, WrittenOr(s, DefaultStrategy()), sub, fuel);
    }

    lemma CutSettles(l: Tree, w: Tree, r: Tree, spends: bool)
      requires Valid() && l.Ok() && w.Ok() && r.Ok() && l.Effect() == r.Effect()
      requires Settled(library, c, spends, Aligned(l, w).0, Aligned(l, w).1)
      requires Settled(library, c, spends, Aligned(w, r).0, Aligned(w, r).1)
      ensures Settled(library, c, spends, l, r)
    {
      hide Agree; hide Aligned; hide LibraryCalls;
      forall calls: Interp | spends ==> calls == LibraryCalls(library, c) ensures Agree(l, r, calls) {
        CutProves(l, w, r, calls);
      }
    }

    /** The shared ends of the two spines go, and what is left is the goal. */
    method Narrow(ctx: Context, strategy: Strategy, goal: Goal, fuel: nat) returns (r: Outcome)
      requires Valid() && ctx.Valid() && Fits(ctx, goal) && Readable(ctx, strategy)
      requires strategy != [] && strategy[0].Peel? && ctx.At(goal.lhs) != ctx.At(goal.rhs)
      modifies ctx
      ensures ctx.Grew()
      ensures r == Closed ==> old(Proved(ctx, strategy, goal))
      ensures old(Foretold(ctx, strategy, goal, r))
      decreases Size(strategy), 1
    {
      hide Certifies; hide Agree; hide Honest; hide Tree.Effect; hide Tree.Ok; hide Stones; hide Spends; hide Spine;
      hide Peels; hide TreeAt; hide Ordered; hide Answer; hide Peeled; hide Ends;
      RestWithin(strategy);
      ghost var (l, rt) := (ctx.At(goal.lhs), ctx.At(goal.rhs));
      PeelAnswer(library, c, ctx.terms, strategy, l, rt);
      ReadableReads(ctx, strategy[1..]);
      var peeled, p, q := PeelEnds(ctx, goal);
      if peeled.None? {
        return Stuck;
      }
      AnswerStays(library, c, old(ctx.terms), ctx.terms, strategy[1..], Peeled(l, rt, p, q).0, Peeled(l, rt, p, q).1);
      r := RunSteps(ctx, strategy[1..], peeled.value, fuel);
      if r == Closed {
        PeelSettles(l, rt, p, q, Spends(strategy[1..]));
        SettledFor(library, c, Spends(strategy[1..]), Spends(strategy), l, rt);
      }
    }

    lemma PeelSettles(l: Tree, r: Tree, p: nat, q: nat, spends: bool)
      requires Valid() && l.Ok() && r.Ok() && l.Effect() == r.Effect() && Peels(Spine(l), Spine(r), p, q)
      requires Settled(library, c, spends, Peeled(l, r, p, q).0, Peeled(l, r, p, q).1)
      ensures Settled(library, c, spends, l, r)
    {
      hide Agree; hide Spine; hide Rebuilt; hide Width; hide LibraryCalls;
      forall calls: Interp | spends ==> calls == LibraryCalls(library, c) ensures Agree(l, r, calls) {
        PeelProves(l, r, p, q, Width(Spine(l)[..p], l.Effect().inputs), calls);
      }
    }

    /** A term's compose spine, as places in the arena. */
    method SpineOf(ctx: Context, term: TermIndex) returns (out: seq<TermIndex>)
      requires ctx.Valid() && ctx.Has(term)
      ensures Names(ctx.terms, out, Spine(ctx.At(term)))
      decreases term
    {
      assert ctx.terms[term].Below(term);
      match ctx.terms[term] {
        case Compose(a, b) =>
          var x := SpineOf(ctx, a);
          var y := SpineOf(ctx, b);
          NamesJoin(ctx.terms, x, y, Spine(ctx.At(a)), Spine(ctx.At(b)));
          out := x + y;
        case _ =>
          out := [term];
      }
    }

    /** A stretch of spine folded left; the parts are pointed at, not copied. */
    method Rebuild(ctx: Context, parts: seq<TermIndex>, width: nat, ghost trees: seq<Tree>) returns (i: TermIndex)
      requires ctx.Valid() && Names(ctx.terms, parts, trees)
      modifies ctx
      ensures ctx.Grew() && ctx.Has(i) && ctx.At(i) == Rebuilt(trees, width)
    {
      if parts == [] {
        i := ctx.Push(Term.Id(width));
        return;
      }
      i := parts[0];
      for k := 1 to |parts|
        invariant ctx.Grew() && ctx.Has(i)
        invariant Folded(ctx.At(i), trees[k..]) == Rebuilt(trees, width)
      {
        assert ctx.Has(parts[k]) && ctx.At(parts[k]) == trees[k];
        assert trees[k..][0] == trees[k] && trees[k..][1..] == trees[k + 1..];
        i := ctx.Push(Term.Compose(i, parts[k]));
      }
    }

    /** How many leading parts two spines share. */
    method SharedPrefix(ctx: Context, l: seq<TermIndex>, r: seq<TermIndex>, ghost x: seq<Tree>, ghost y: seq<Tree>)
      returns (p: nat)
      requires ctx.Valid() && Names(ctx.terms, l, x) && Names(ctx.terms, r, y)
      ensures p == Front(x, y, 0)
    {
      p := 0;
      while p < |l| && p < |r|
        invariant p <= |l| && p <= |r| && Front(x, y, p) == Front(x, y, 0)
      {
        var same := ctx.Equal(l[p], r[p]);
        if !same {
          return;
        }
        p := p + 1;
      }
    }

    /** How many trailing parts they share, without meeting the leading ones. */
    method SharedSuffix(
      ctx: Context, l: seq<TermIndex>, r: seq<TermIndex>, p: nat, ghost x: seq<Tree>, ghost y: seq<Tree>)
      returns (q: nat)
      requires ctx.Valid() && Names(ctx.terms, l, x) && Names(ctx.terms, r, y) && p <= |x| && p <= |y|
      ensures q == Back(x, y, p, 0)
    {
      q := 0;
      while p + q < |l| && p + q < |r|
        invariant p + q <= |l| && p + q <= |r| && Back(x, y, p, q) == Back(x, y, p, 0)
      {
        assert ctx.At(Last(l, q)) == Last(x, q) && ctx.At(Last(r, q)) == Last(y, q);
        var same := ctx.Equal(Last(l, q), Last(r, q));
        if !same {
          return;
        }
        q := q + 1;
      }
    }

    /** The goal that is left when equal parts at the front and back of both sides are taken away. */
    method PeelEnds(ctx: Context, goal: Goal) returns (r: Option<Goal>, p: nat, q: nat)
      requires Valid() && ctx.Valid() && Fits(ctx, goal)
      modifies ctx
      ensures ctx.Grew()
      ensures (p, q) == Ends(old(Spine(ctx.At(goal.lhs))), old(Spine(ctx.At(goal.rhs)))) && (r.None? <==> p + q == 0)
      ensures Peels(old(Spine(ctx.At(goal.lhs))), old(Spine(ctx.At(goal.rhs))), p, q)
      ensures r.Some? ==> Fits(ctx, r.value)
      ensures r.Some? ==>
        (ctx.At(r.value.lhs), ctx.At(r.value.rhs)) == Peeled(old(ctx.At(goal.lhs)), old(ctx.At(goal.rhs)), p, q)
    {
      hide Certifies; hide Honest; hide Tree.Effect; hide Tree.Ok; hide Spine; hide Rebuilt; hide Width; hide TreeAt;
      hide Ordered;
      ghost var (l, rt) := (ctx.At(goal.lhs), ctx.At(goal.rhs));
      var lhs := SpineOf(ctx, goal.lhs);
      var rhs := SpineOf(ctx, goal.rhs);
      p := SharedPrefix(ctx, lhs, rhs, Spine(l), Spine(rt));
      q := SharedSuffix(ctx, lhs, rhs, p, Spine(l), Spine(rt));
      assert (p, q) == Ends(Spine(l), Spine(rt));
      if p + q == 0 {
        return None, p, q;
      }
      var boundary := if p > 0 then ctx.EffectAt(lhs[p - 1]).outputs else ctx.EffectAt(goal.lhs).inputs;
      WidthAfter(Spine(l), l.Effect().inputs, p);
      PeeledSound(l, rt, p, q);
      NamesMiddle(ctx.terms, lhs, Spine(l), p, q);
      NamesMiddle(ctx.terms, rhs, Spine(rt), p, q);
      hide Names; hide Middle; hide Peels;
      var a := Rebuild(ctx, Middle(lhs, p, q), boundary, Middle(Spine(l), p, q));
      NamesStay(old(ctx.terms), ctx.terms, Middle(rhs, p, q), Middle(Spine(rt), p, q));
      var b := Rebuild(ctx, Middle(rhs, p, q), boundary, Middle(Spine(rt), p, q));
      r := Some(Goal(a, b));
    }

    lemma PeeledSound(l: Tree, r: Tree, p: nat, q: nat)
      requires Sound(l) && Sound(r) && l.Effect() == r.Effect() && Peels(Spine(l), Spine(r), p, q)
      ensures Sound(Peeled(l, r, p, q).0) && Sound(Peeled(l, r, p, q).1)
      ensures Peeled(l, r, p, q).0.Effect() == Peeled(l, r, p, q).1.Effect()
    {
      hide Terms.Run; hide Spine;
      var n := l.Effect().inputs;
      var width := Width(Spine(l)[..p], n);
      SpineChains(l);
      SpineChains(r);
      PeeledShapes(Spine(l), Spine(r), n, p, q);
      RebuiltRuns(Middle(Spine(l), p, q), width, imap[]);
      RebuiltRuns(Middle(Spine(r), p, q), width, imap[]);
      RebuiltHonest(l, p, q, width);
      RebuiltHonest(r, p, q, width);
    }

    lemma RebuiltHonest(t: Tree, p: nat, q: nat, width: nat)
      requires Honest(library, c, t) && p + q <= |Spine(t)|
      ensures Honest(library, c, Rebuilt(Middle(Spine(t), p, q), width))
    {
      hide Spine;
      SpineHonest(library, c, t);
      var parts := Middle(Spine(t), p, q);
      assert forall part | part in parts :: part in Spine(t);
      if parts != [] {
        FoldedHonest(library, c, parts[0], parts[1..]);
      }
    }

    // ---- descending into arms ----

    /** A branch on both sides, taken arm by arm. */
    method DescendArms(ctx: Context, strategy: Strategy, goal: Goal, fuel: nat) returns (r: Outcome)
      requires Valid() && ctx.Valid() && Fits(ctx, goal) && Readable(ctx, strategy)
      requires strategy != [] && strategy[0].Descend? && ctx.At(goal.lhs) != ctx.At(goal.rhs)
      modifies ctx
      ensures ctx.Grew()
      ensures r == Closed ==> old(Proved(ctx, strategy, goal))
      ensures old(Foretold(ctx, strategy, goal, r))
      decreases Size(strategy), 1
    {
      hide Certifies; hide Agree; hide Stones; hide Spends; hide Answer; hide ArmAnswer; hide Size; hide SideSize;
      hide StepSize; hide StepStones; hide SideSpends;
      var Descend(thenArm, elseArm) := strategy[0];
      ArmsWithin(strategy);
      DescendAnswer(library, c, ctx.terms, strategy, ctx.At(goal.lhs), ctx.At(goal.rhs));
      if !ctx.terms[goal.lhs].Branch? || !ctx.terms[goal.rhs].Branch? {
        return Stuck;
      }
      assert ctx.terms[goal.lhs].Below(goal.lhs) && ctx.terms[goal.rhs].Below(goal.rhs);
      ghost var (l, rt) := (ctx.At(goal.lhs), ctx.At(goal.rhs));
      var (t1, e1) := (ctx.terms[goal.lhs].ifTrue, ctx.terms[goal.lhs].ifFalse);
      var (t2, e2) := (ctx.terms[goal.rhs].ifTrue, ctx.terms[goal.rhs].ifFalse);
      ArmReads(ctx, thenArm, strategy);
      ArmReads(ctx, elseArm, strategy);
      r := Arm(ctx, thenArm, t1, t2, fuel);
      if r != Closed {
        return;
      }
      ArmAnswerStays(library, c, old(ctx.terms), ctx.terms, elseArm, l.ifFalse, rt.ifFalse);
      r := Arm(ctx, elseArm, e1, e2, fuel);
      if r == Closed {
        SettledFor(library, c, SideSpends(thenArm), Spends(strategy), l.ifTrue, rt.ifTrue);
        SettledFor(library, c, SideSpends(elseArm), Spends(strategy), l.ifFalse, rt.ifFalse);
        DescendSettles(l, rt, Spends(strategy));
      }
    }

    lemma DescendSettles(l: Tree, r: Tree, spends: bool)
      requires Valid() && l.Branch? && r.Branch? && l.Ok()
      requires Settled(library, c, spends, l.ifTrue, r.ifTrue) && Settled(library, c, spends, l.ifFalse, r.ifFalse)
      ensures Settled(library, c, spends, l, r)
    {
      hide Agree; hide LibraryCalls;
      forall calls: Interp | spends ==> calls == LibraryCalls(library, c) ensures Agree(l, r, calls) {
        DescendProves(l.ifTrue, l.ifFalse, r.ifTrue, r.ifFalse, calls);
      }
    }

    lemma ArmReads(ctx: Context, s: Side, strategy: Strategy)
      requires ctx.Valid() && Readable(ctx, strategy) && ArmWithin(s, strategy)
      ensures s.Written? ==> Readable(ctx, s.steps) && Reads(ctx.terms, s.steps)
    {
      hide Stones; hide Honest; hide Tree.Ok; hide Size; hide SideSize; hide Spends; hide SideSpends;
    }

    /** One arm of a `descend`: by its own strategy, or equal as written. */
    method Arm(ctx: Context, s: Side, a: TermIndex, b: TermIndex, fuel: nat) returns (r: Outcome)
      requires Valid() && ctx.Valid() && Fits(ctx, Goal(a, b)) && (s.Written? ==> Readable(ctx, s.steps))
      modifies ctx
      ensures ctx.Grew()
      ensures r == Closed ==> old(Settled(library, c, SideSpends(s), ctx.At(a), ctx.At(b)))
      ensures old(ArmAnswer(library, c, ctx.terms, s, ctx.At(a), ctx.At(b)) in {None, Some(r)})
      decreases SideSize(s), 3
    {
      hide Certifies; hide Agree; hide Honest; hide Tree.Effect; hide Tree.Ok; hide Stones; hide Spends; hide Answer;
      ghost var (x, y) := (ctx.At(a), ctx.At(b));
      if s.Written? {
        ReadableReads(ctx, s.steps);
      }
      var sub := Align(ctx, a, b);
      if s.Written? {
        assert Aligned(x, y) == (x, y);
        AnswerStays(library, c, old(ctx.terms), ctx.terms, s.steps, x, y);
        r := RunSteps(ctx, s.steps, sub, fuel);
        return;
      }
      var same := ctx.Equal(a, b);
      if same {
        TriviallySettled(x, false);
        return Closed;
      }
      r := Stuck;
    }

    // ---- opening calls ----

    /** The goal with calls replaced by their bodies, padded back to one arity. */
    method Open(ctx: Context, strategy: Strategy, goal: Goal, fuel: nat) returns (r: Outcome)
      requires Valid() && ctx.Valid() && Fits(ctx, goal) && Readable(ctx, strategy)
      requires strategy != [] && strategy[0].Inline? && ctx.At(goal.lhs) != ctx.At(goal.rhs)
      modifies ctx
      ensures ctx.Grew()
      ensures r == Closed ==> old(Proved(ctx, strategy, goal))
      ensures old(Foretold(ctx, strategy, goal, r))
      decreases Size(strategy), 1
    {
      hide Certifies; hide Agree; hide Honest; hide Tree.Effect; hide Tree.Ok; hide Stones; hide Spends;
      hide TreeAt; hide Ordered; hide HasCalls; hide Height; hide Answer; hide Inlined; hide Aligned;
      var only := strategy[0].only;
      RestWithin(strategy);
      ghost var (l, rt) := (ctx.At(goal.lhs), ctx.At(goal.rhs));
      InlineAnswer(library, c, ctx.terms, strategy, l, rt);
      ReadableReads(ctx, strategy[1..]);
      var some := Calls(ctx, goal.lhs, only);
      if !some {
        some := Calls(ctx, goal.rhs, only);
      }
      if !some {
        return Stuck;
      }
      var a := InlineCalls(ctx, goal.lhs, only);
      var b := InlineCalls(ctx, goal.rhs, only);
      ghost var (x, y) := (ctx.At(a), ctx.At(b));
      OneShape(l, x);
      OneShape(rt, y);
      var goal' := Align(ctx, a, b);
      AnswerStays(library, c, old(ctx.terms), ctx.terms, strategy[1..], Aligned(x, y).0, Aligned(x, y).1);
      r := RunSteps(ctx, strategy[1..], goal', fuel);
      if r == Closed {
        OpenSettles(l, rt, x, y, Spends(strategy[1..]));
        SettledFor(library, c, true, Spends(strategy), l, rt);
      }
    }

    lemma OneShape(a: Tree, b: Tree)
      requires Valid() && Agree(a, b, LibraryCalls(library, c))
      ensures a.Effect() == b.Effect()
    {
    }

    lemma OpenSettles(l: Tree, r: Tree, a: Tree, b: Tree, spends: bool)
      requires Valid() && l.Effect() == r.Effect()
      requires Agree(l, a, LibraryCalls(library, c)) && Agree(r, b, LibraryCalls(library, c))
      requires Settled(library, c, spends, Aligned(a, b).0, Aligned(a, b).1)
      ensures Settled(library, c, true, l, r)
    {
      hide LibraryCalls; hide Terms.Run; hide Tree.Effect; hide Tree.Ok;
      var calls := LibraryCalls(library, c);
      assert Aligned(a, b) == (a, b);
      assert Agree(a, b, calls);
      AgreeJoins(l, a, b, calls);
      assert Agree(b, r, calls);
      AgreeJoins(l, b, r, calls);
    }

    /** A call somewhere in the term would be replaced. */
    method Calls(ctx: Context, term: TermIndex, only: Option<SentenceIndex>) returns (some: bool)
      requires ctx.Valid() && ctx.Has(term)
      ensures some <==> HasCalls(ctx.At(term), only)
      decreases term
    {
      assert ctx.terms[term].Below(term);
      match ctx.terms[term] {
        case Call(target, _) =>
          some := only == None || only == Some(target);
        case Compose(a, b) =>
          some := Calls(ctx, a, only);
          if !some { some := Calls(ctx, b, only); }
        case Par(a, b) =>
          some := Calls(ctx, a, only);
          if !some { some := Calls(ctx, b, only); }
        case Branch(a, b) =>
          some := Calls(ctx, a, only);
          if !some { some := Calls(ctx, b, only); }
        case _ =>
          some := false;
      }
    }

    /** What opening calls must leave: those calls opened and nothing else, none of them left, the same function. */
    ghost predicate Opened(from: Tree, to: Tree, only: Option<SentenceIndex>)
      requires Valid() && Sound(from)
    {
      && Sound(to) && Agree(from, to, LibraryCalls(library, c)) && !HasCalls(to, only)
      && to == Inlined(library, c, from, only)
    }

    /** The term with calls replaced by what they call: all of them, repeatedly, or those to one sentence, once. */
    method InlineCalls(ctx: Context, term: TermIndex, only: Option<SentenceIndex>) returns (i: TermIndex)
      requires Valid() && ctx.Valid() && Holds(ctx, term)
      modifies ctx
      ensures ctx.Grew() && ctx.Has(i) && Opened(old(ctx.At(term)), ctx.At(i), only)
      decreases Height(library, c, ctx.At(term)), 1, ctx.At(term)
    {
      hide Certifies; hide Terms.Run; hide Tree.Effect; hide LibraryCalls; hide Agree; hide Library.Closed;
      hide Accepts; hide Opened; hide Inlined;
      ghost var t := ctx.At(term);
      ctx.NodeAt(term);
      hide TreeAt; hide Ordered;
      match ctx.terms[term] {
        case Call(target, arity) =>
          if only == None || only == Some(target) {
            i := OpenCall(ctx, target, only, t);
          } else {
            Leaf(t, only);
            i := term;
          }
        case Compose(a, b) =>
          Pieces(t, t.left, t.right);
          var x, y := InlineBoth(ctx, a, b, only, t);
          Rejoined(t, t.left, t.right, ctx.At(x), ctx.At(y), Tree.Compose(ctx.At(x), ctx.At(y)), only);
          i := ctx.Push(Term.Compose(x, y));
        case Par(a, b) =>
          Pieces(t, t.left, t.right);
          var x, y := InlineBoth(ctx, a, b, only, t);
          Rejoined(t, t.left, t.right, ctx.At(x), ctx.At(y), Tree.Par(ctx.At(x), ctx.At(y)), only);
          i := ctx.Push(Term.Par(x, y));
        case Branch(a, b) =>
          Pieces(t, t.ifTrue, t.ifFalse);
          var x, y := InlineBoth(ctx, a, b, only, t);
          Rejoined(t, t.ifTrue, t.ifFalse, ctx.At(x), ctx.At(y), Tree.Branch(ctx.At(x), ctx.At(y)), only);
          i := ctx.Push(Term.Branch(x, y));
        case _ =>
          Leaf(t, only);
          i := term;
      }
    }

    /** The two pieces of a node, one after the other. */
    method InlineBoth(ctx: Context, a: TermIndex, b: TermIndex, only: Option<SentenceIndex>, ghost t: Tree)
      returns (x: TermIndex, y: TermIndex)
      requires Valid() && ctx.Valid() && Holds(ctx, a) && Holds(ctx, b) && Sound(t)
      requires var (l, r) := (ctx.At(a), ctx.At(b));
        t == Tree.Compose(l, r) || t == Tree.Par(l, r) || t == Tree.Branch(l, r)
      modifies ctx
      ensures ctx.Grew() && ctx.Has(x) && ctx.Has(y)
      ensures Opened(old(ctx.At(a)), ctx.At(x), only) && Opened(old(ctx.At(b)), ctx.At(y), only)
      decreases Height(library, c, t), 1, t, 0
    {
      hide Certifies; hide Terms.Run; hide Tree.Effect; hide LibraryCalls; hide Agree; hide Opened;
      Pieces(t, ctx.At(a), ctx.At(b));
      x := InlineCalls(ctx, a, only);
      y := InlineCalls(ctx, b, only);
    }

    lemma Leaf(t: Tree, only: Option<SentenceIndex>)
      requires Valid() && Sound(t) && !HasCalls(t, only)
      ensures Opened(t, t, only)
    {
    }

    /** The pieces of a node: each sound, and none of them higher than the whole. */
    lemma Pieces(t: Tree, a: Tree, b: Tree)
      requires Valid() && Sound(t)
      requires t == Tree.Compose(a, b) || t == Tree.Par(a, b) || t == Tree.Branch(a, b)
      ensures Sound(a) && Sound(b)
      ensures Height(library, c, a) <= Height(library, c, t) && Height(library, c, b) <= Height(library, c, t)
    {
    }

    /** A node put back over its opened pieces. */
    lemma Rejoined(t: Tree, a: Tree, b: Tree, x: Tree, y: Tree, u: Tree, only: Option<SentenceIndex>)
      requires Valid() && Sound(t) && Sound(a) && Sound(b) && Opened(a, x, only) && Opened(b, y, only)
      requires || (t == Tree.Compose(a, b) && u == Tree.Compose(x, y))
               || (t == Tree.Par(a, b) && u == Tree.Par(x, y))
               || (t == Tree.Branch(a, b) && u == Tree.Branch(x, y))
      ensures Opened(t, u, only)
    {
      hide Terms.Run; hide LibraryCalls;
      var calls := LibraryCalls(library, c);
      if t.Compose? {
        ComposeAgrees(a, b, x, y, calls);
      } else if t.Par? {
        ParAgrees(a, b, x, y, calls);
      } else {
        DescendProves(a, b, x, y, calls);
      }
    }

    /** One call replaced by the sentence it names, and that opened in turn if everything is to be. */
    method OpenCall(ctx: Context, target: SentenceIndex, only: Option<SentenceIndex>, ghost t: Tree)
      returns (i: TermIndex)
      requires Valid() && ctx.Valid() && Covered(library, c, target) && t == Tree.Call(target, c.arities[target])
      requires only == None || only == Some(target)
      modifies ctx
      ensures ctx.Grew() && ctx.Has(i) && Opened(t, ctx.At(i), only)
      decreases c.ranks[target] + 1, 0
    {
      hide Terms.Run; hide Tree.Effect; hide LibraryCalls; hide Agree;
      AcceptedIsAcyclic();
      var body := LowerInto(ctx, library, target, c.ranks, c);
      CallOpens(library, c, target);
      SentenceBeneath(library, c, target);
      i := body.value;
      if only == None {
        i := InlineCalls(ctx, i, only);
        AgreeJoins(t, LowerSentence(library, c, target), ctx.At(i), LibraryCalls(library, c));
      } else {
        NoCallTo(library, c, ctx.At(i), target);
      }
    }

    lemma AcceptedIsAcyclic()
      requires Valid()
      ensures Acyclic(library, c.ranks)
    {
      forall s | 0 <= s < |library.sentences| ensures s in c.ranks &&
        forall ip | 0 <= ip < |library.sentences[s]| ::
          forall t | t in library.sentences[s][ip].Callees() :: t in c.ranks && c.ranks[t] < c.ranks[s]
      {
        assert Justified(library, c, s);
        forall ip | 0 <= ip < |library.sentences[s]| ensures Libraries.Lower(c, s, library.sentences[s][ip]) {
        }
      }
    }
  }
}
