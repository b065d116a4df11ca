/** What each step of a strategy does for a goal, on the goals it is there for. */
module Closings {
  import opened Wrappers
  import opened Values
  import Prims
  import opened Terms
  import opened Spines
  import opened Libraries
  import opened Lowering
  import opened Goals
  import opened Readings
  import opened Tactics

  // ---- cutting ----

  /** A cut through a term of the goal's arity, its halves left to `diagram`, closes if nothing tells it from either. */
  lemma CutCloses(lib: Library, c: Certificate, terms: seq<Term>, w: TermIndex, s: Strategy, l: Tree, r: Tree)
    requires Ordered(terms) && w < |terms| && l != r && l.Effect() == TreeAt(terms, w).Effect() == r.Effect()
    requires Opaque(l) && Opaque(TreeAt(terms, w)) && Opaque(r)
    ensures Answer(lib, c, terms, [Via(w, Omitted, Omitted)] + s, l, r) == Some(Closed)
      <==> AtOnce(l, TreeAt(terms, w)) && AtOnce(TreeAt(terms, w), r)
  {
    hide Alike; hide Opaque; hide TreeAt; hide Tree.Effect; hide Answer;
    var steps := [Via(w, Omitted, Omitted)] + s;
    var mid := TreeAt(terms, w);
    CutAnswer(lib, c, terms, steps, l, r);
    HalfIsDiagram(lib, c, terms, l, mid);
    HalfIsDiagram(lib, c, terms, mid, r);
  }

  /** One term as written, or not to be told apart. */
  ghost predicate AtOnce(l: Tree, r: Tree) {
    l == r || Alike(l, r)
  }

  lemma HalfIsDiagram(lib: Library, c: Certificate, terms: seq<Term>, l: Tree, r: Tree)
    requires Ordered(terms) && l.Effect() == r.Effect() && Opaque(l) && Opaque(r)
    ensures HalfAnswer(lib, c, terms, Omitted, l, r) == Some(if AtOnce(l, r) then Closed else Stuck)
  {
    hide Alike; hide Opaque; hide Tree.Effect;
    assert Aligned(l, r) == (l, r);
  }

  // ---- going into the arms ----

  /** Two branches close if their arms do, each under its own strategy; without one an arm has to be as written. */
  lemma DescendCloses(
    lib: Library, c: Certificate, terms: seq<Term>, thenArm: Side, elseArm: Side, s: Strategy, l: Tree, r: Tree)
    requires Ordered(terms) && l != r && l.Branch? && r.Branch?
    ensures Answer(lib, c, terms, [Descend(thenArm, elseArm)] + s, l, r) == Some(Closed) <==>
      (if thenArm.Written? then Answer(lib, c, terms, thenArm.steps, l.ifTrue, r.ifTrue) == Some(Closed)
       else l.ifTrue == r.ifTrue)
      && (if elseArm.Written? then Answer(lib, c, terms, elseArm.steps, l.ifFalse, r.ifFalse) == Some(Closed)
          else l.ifFalse == r.ifFalse)
  {
    hide Answer;
    DescendAnswer(lib, c, terms, [Descend(thenArm, elseArm)] + s, l, r);
  }

  // ---- peeling ----

  /** What two terms begin with alike comes off, and the rest of the strategy is asked of what is left. */
  lemma PeelsFront(lib: Library, c: Certificate, terms: seq<Term>, s: Strategy, x: Tree, a: Tree, b: Tree)
    requires Ordered(terms) && a != b && !a.Compose? && !b.Compose?
    ensures Answer(lib, c, terms, [Peel] + s, Tree.Compose(x, a), Tree.Compose(x, b)) == Answer(lib, c, terms, s, a, b)
  {
    hide Answer; hide Width;
    var (l, r) := (Tree.Compose(x, a), Tree.Compose(x, b));
    var n := |Spine(x)|;
    assert Spine(a) == [a] && Spine(b) == [b];
    assert Spine(l) == Spine(x) + [a] && Spine(r) == Spine(x) + [b];
    FrontWhole(Spine(l), Spine(r), 0, n);
    assert Ends(Spine(l), Spine(r)) == (n, 0);
    assert Middle(Spine(l), n, 0) == [a] && Middle(Spine(r), n, 0) == [b];
    assert ([Peel] + s)[1..] == s;
    PeelAnswer(lib, c, terms, [Peel] + s, l, r);
  }

  /** And so does what they end with alike. */
  lemma PeelsBack(lib: Library, c: Certificate, terms: seq<Term>, s: Strategy, x: Tree, a: Tree, b: Tree)
    requires Ordered(terms) && a != b && !a.Compose? && !b.Compose?
    ensures Answer(lib, c, terms, [Peel] + s, Tree.Compose(a, x), Tree.Compose(b, x)) == Answer(lib, c, terms, s, a, b)
  {
    hide Answer; hide Width;
    var (l, r) := (Tree.Compose(a, x), Tree.Compose(b, x));
    var n := |Spine(x)|;
    assert Spine(a) == [a] && Spine(b) == [b];
    assert Spine(l) == [a] + Spine(x) && Spine(r) == [b] + Spine(x);
    BackWhole(Spine(l), Spine(r), 0, n);
    assert Ends(Spine(l), Spine(r)) == (0, n);
    assert Middle(Spine(l), 0, n) == [a] && Middle(Spine(r), 0, n) == [b];
    assert ([Peel] + s)[1..] == s;
    PeelAnswer(lib, c, terms, [Peel] + s, l, r);
  }

  lemma {:induction false} FrontWhole<T>(l: seq<T>, r: seq<T>, p: nat, n: nat)
    requires p <= n < |l| && n < |r| && l[..n] == r[..n] && l[n] != r[n]
    ensures Front(l, r, p) == n
    decreases n - p
  {
    if p < n {
      assert l[p] == l[..n][p] && r[p] == r[..n][p];
      FrontWhole(l, r, p + 1, n);
    }
  }

  lemma {:induction false} BackWhole<T>(l: seq<T>, r: seq<T>, q: nat, n: nat)
    requires q <= n && |l| == |r| == n + 1 && l[1..] == r[1..] && l[0] != r[0]
    ensures Back(l, r, 0, q) == n
    decreases n - q
  {
    if q < n {
      assert Last(l, q) == l[1..][n - 1 - q] && Last(r, q) == r[1..][n - 1 - q];
      BackWhole(l, r, q + 1, n);
    }
  }

  // ---- opening calls ----

  lemma {:induction false} NothingInlined(lib: Library, c: Certificate, t: Tree, only: Option<SentenceIndex>)
    requires Honest(lib, c, t) && !HasCalls(t, only)
    ensures Inlined(lib, c, t, only) == t
  {
    match t
    case Compose(a, b) => NothingInlined(lib, c, a, only); NothingInlined(lib, c, b, only);
    case Par(a, b) => NothingInlined(lib, c, a, only); NothingInlined(lib, c, b, only);
    case Branch(a, b) => NothingInlined(lib, c, a, only); NothingInlined(lib, c, b, only);
    case _ =>
  }

  /** Opened, a call is the term of the sentence it names: the goal between the two closes, labelled or not. */
  lemma InlineCloses(
    lib: Library, c: Certificate, terms: seq<Term>, s: Strategy, t: SentenceIndex, only: Option<SentenceIndex>)
    requires Ordered(terms) && Covered(lib, c, t) && (only == None || only == Some(t))
    ensures Answer(lib, c, terms, [Inline(only)] + s, Tree.Call(t, c.arities[t]), LowerSentence(lib, c, t))
      == Some(Closed)
  {
    hide LowerSentence; hide Answer;
    var (call, body) := (Tree.Call(t, c.arities[t]), LowerSentence(lib, c, t));
    SentenceBeneath(lib, c, t);
    if only == Some(t) {
      NoCallTo(lib, c, body, t);
      NothingInlined(lib, c, body, only);
    }
    assert Inlined(lib, c, call, only) == Inlined(lib, c, body, only);
    EqualCloses(lib, c, terms, [Inline(only)] + s, call, body);
    if call != body {
      InlineAnswer(lib, c, terms, [Inline(only)] + s, call, body);
      var open := Inlined(lib, c, body, only);
      assert Aligned(open, open) == (open, open);
      EqualCloses(lib, c, terms, ([Inline(only)] + s)[1..], open, open);
    }
  }

  lemma EqualCloses(lib: Library, c: Certificate, terms: seq<Term>, s: Strategy, l: Tree, r: Tree)
    requires Ordered(terms)
    ensures l == r ==> Answer(lib, c, terms, s, l, r) == Some(Closed)
  {
  }

  // ---- a call is not its body ----

  /** The calls read as `calls` has them, but for those to one sentence, which leave this value throughout. */
  ghost function Instead(calls: Interp, t: SentenceIndex, arity: Prims.Arity, v: Value): Interp {
    imap key: (SentenceIndex, Prims.Arity, seq<Value>) | key.0 == t || key in calls ::
      if key.0 == t then seq(arity.outputs, i => v) else calls[key]
  }

  lemma {:induction false} NotAsked(
    u: Tree, calls: Interp, t: SentenceIndex, arity: Prims.Arity, v: Value, s: seq<Value>)
    requires u.Ok() && |s| == u.Effect().inputs && !HasCalls(u, Some(t))
    ensures Run(u, Instead(calls, t, arity, v), s) == Run(u, calls, s)
    decreases u
  {
    match u
    case Compose(a, b) =>
      NotAsked(a, calls, t, arity, v, s);
      NotAsked(b, calls, t, arity, v, Run(a, calls, s));
    case Par(a, b) =>
      NotAsked(a, calls, t, arity, v, s[..a.Effect().inputs]);
      NotAsked(b, calls, t, arity, v, s[a.Effect().inputs..]);
    case Branch(a, b) =>
      NotAsked(if s[|s| - 1].Truthy() then a else b, calls, t, arity, v, s[..|s| - 1]);
    case _ =>
  }

  /** Left closed, a call that leaves anything is not the program of the sentence it names. */
  lemma CallIsNotItsBody(lib: Library, c: Certificate, t: SentenceIndex)
    requires Covered(lib, c, t) && c.arities[t].outputs > 0
    ensures !Same(Tree.Call(t, c.arities[t]), LowerSentence(lib, c, t))
  {
    hide LowerSentence; hide Justified; hide Library.Closed;
    var arity := c.arities[t];
    var (call, body) := (Tree.Call(t, arity), LowerSentence(lib, c, t));
    var calls: Interp, s := imap[], Units(arity.inputs);
    SentenceBeneath(lib, c, t);
    NoCallTo(lib, c, body, t);
    NotAsked(body, calls, t, arity, Int(0), s);
    NotAsked(body, calls, t, arity, Int(1), s);
    LeavesInstead(calls, t, arity, Int(0), s);
    LeavesInstead(calls, t, arity, Int(1), s);
    var zero, one := Instead(calls, t, arity, Int(0)), Instead(calls, t, arity, Int(1));
    assert Run(call, zero, s) != Run(call, one, s) && Run(body, zero, s) == Run(body, one, s);
  }

  lemma LeavesInstead(calls: Interp, t: SentenceIndex, arity: Prims.Arity, v: Value, s: seq<Value>)
    requires |s| == arity.inputs && arity.outputs > 0
    ensures Run(Tree.Call(t, arity), Instead(calls, t, arity, v), s)[0] == v
  {
  }
}
