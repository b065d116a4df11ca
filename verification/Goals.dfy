/** A goal is two terms claimed equal; what each way of taking one apart is entitled to conclude. */
module Goals {
  import opened Wrappers
  import opened Values
  import opened Terms
  import opened Spines
  import opened Libraries
  import opened Lowering

  // ---- the claim ----

  /** Two terms of one arity that leave the same stack on every input, the calls read this way. */
  ghost predicate Agree(a: Tree, b: Tree, calls: Interp) {
    && a.Ok() && b.Ok() && a.Effect() == b.Effect()
    && forall s: seq<Value> | |s| == a.Effect().inputs :: Run(a, calls, s) == Run(b, calls, s)
  }

  /** What a closed goal comes to: for the library's calls once one was opened, for any calls until then. */
  ghost predicate Settled(lib: Library, c: Certificate, inlined: bool, a: Tree, b: Tree)
    requires Certifies(lib, c)
  {
    forall calls: Interp | inlined ==> calls == LibraryCalls(lib, c) :: Agree(a, b, calls)
  }

  lemma NeverOpened(lib: Library, c: Certificate, a: Tree, b: Tree)
    requires Certifies(lib, c) && a.Ok() && b.Ok() && a.Effect() == b.Effect()
    ensures Settled(lib, c, false, a, b) <==> Same(a, b)
  {
    if Settled(lib, c, false, a, b) {
      forall calls: Interp, s: seq<Value> | |s| == a.Effect().inputs ensures Run(a, calls, s) == Run(b, calls, s) {
        assert Agree(a, b, calls);
      }
    }
  }

  // ---- cutting at a waypoint ----

  function Aligned(l: Tree, r: Tree): (Tree, Tree) {
    var (n, m) := (l.Effect().inputs, r.Effect().inputs);
    if n < m then (Widened(l, m - n), r) else (l, Widened(r, n - m))
  }

  /** Padding cancels: what passes underneath says nothing about the two programs on top of it. */
  lemma PaddingCancels(a: Tree, b: Tree, n: nat, calls: Interp)
    requires a.Ok() && b.Ok() && Agree(Widened(a, n), Widened(b, n), calls)
    ensures Agree(a, b, calls)
  {
    hide Run; hide Tree.Effect; hide Tree.Ok; hide Widened;
    forall s: seq<Value> | |s| == a.Effect().inputs ensures Run(a, calls, s) == Run(b, calls, s) {
      PaddedRun(a, n, calls, Units(n), s);
      PaddedRun(b, n, calls, Units(n), s);
      var x, y := Run(a, calls, s), Run(b, calls, s);
      assert (Units(n) + x)[n..] == x && (Units(n) + y)[n..] == y;
    }
  }

  lemma PaddedRun(t: Tree, n: nat, calls: Interp, passed: seq<Value>, s: seq<Value>)
    requires t.Ok() && |s| == t.Effect().inputs && |passed| == n
    ensures Widened(t, n).Ok() && Run(Widened(t, n), calls, passed + s) == passed + Run(t, calls, s)
  {
    hide Run;
    if n == 0 {
      assert passed + s == s && passed + Run(t, calls, s) == Run(t, calls, s);
    } else {
      ParRuns(Tree.Id(n), t, calls, passed, s);
      IdRuns(n, calls, passed);
    }
  }

  /** Both halves of a cut, each padded as it needs to be, prove the whole. */
  lemma CutProves(l: Tree, w: Tree, r: Tree, calls: Interp)
    requires l.Ok() && w.Ok() && r.Ok() && l.Effect() == r.Effect()
    requires Agree(Aligned(l, w).0, Aligned(l, w).1, calls)
    requires Agree(Aligned(w, r).0, Aligned(w, r).1, calls)
    ensures Agree(l, r, calls)
  {
    hide Agree; hide Tree.Effect; hide Tree.Ok;
    var (n, m) := (l.Effect().inputs, w.Effect().inputs);
    if n < m {
      AgreeJoins(Widened(l, m - n), w, Widened(r, m - n), calls);
      PaddingCancels(l, r, m - n, calls);
    } else {
      AgreeJoins(l, Widened(w, n - m), r, calls);
    }
  }

  lemma AgreeJoins(a: Tree, b: Tree, c: Tree, calls: Interp)
    requires Agree(a, b, calls) && Agree(b, c, calls)
    ensures Agree(a, c, calls)
  {
    hide Run; hide Tree.Effect; hide Tree.Ok;
    forall s: seq<Value> | |s| == a.Effect().inputs ensures Run(a, calls, s) == Run(c, calls, s) {
      assert Run(a, calls, s) == Run(b, calls, s);
    }
  }

  // ---- peeling shared parts off a spine ----

  /** Two spines that share their first and last parts: what is left of each meets what was stripped. */
  ghost predicate Peels<T>(l: seq<T>, r: seq<T>, p: nat, q: nat) {
    && p + q <= |l| && p + q <= |r|
    && l[..p] == r[..p] && l[|l| - q..] == r[|r| - q..]
  }

  function Middle<T>(s: seq<T>, p: nat, q: nat): seq<T>
    requires p + q <= |s|
  {
    s[p..|s| - q]
  }

  /** The width flowing where the shared prefix ends. */
  lemma {:induction false} WidthAfter(parts: seq<Tree>, n: nat, p: nat)
    requires p <= |parts|
    ensures Width(parts[..p], n) == if p == 0 then n else parts[p - 1].Effect().outputs
    decreases p
  {
    if p > 0 {
      assert parts[..p][1..] == parts[1..][..p - 1];
      WidthAfter(parts[1..], parts[0].Effect().outputs, p - 1);
    }
  }

  lemma MiddleChains(parts: seq<Tree>, n: nat, p: nat, q: nat)
    requires p + q <= |parts| && Chain(parts, n)
    ensures var w := Width(parts[..p], n);
      && Chain(Middle(parts, p, q), w) && Chain(parts[|parts| - q..], Width(Middle(parts, p, q), w))
      && Width(parts, n) == Width(parts[|parts| - q..], Width(Middle(parts, p, q), w))
  {
    var a, b, c := parts[..p], Middle(parts, p, q), parts[|parts| - q..];
    assert parts == a + (b + c);
    ChainsJoin(a, b + c, n);
    ChainsJoin(b, c, Width(a, n));
  }

  /** The narrowed sides have one arity whenever the whole ones do. */
  lemma PeeledShapes(l: seq<Tree>, r: seq<Tree>, n: nat, p: nat, q: nat)
    requires Peels(l, r, p, q) && Chain(l, n) && Chain(r, n) && Width(l, n) == Width(r, n)
    ensures var w := Width(l[..p], n);
      && Chain(Middle(l, p, q), w) && Chain(Middle(r, p, q), w)
      && Width(Middle(l, p, q), w) == Width(Middle(r, p, q), w)
  {
    MiddleChains(l, n, p, q);
    MiddleChains(r, n, p, q);
    assert q > 0 ==> l[|l| - q..][0] == r[|r| - q..][0];
  }

  lemma MiddleRuns(parts: seq<Tree>, p: nat, q: nat, calls: Interp, s: seq<Value>)
    requires p + q <= |parts| && Chain(parts, |s|)
    ensures Chain(parts[..p], |s|)
    ensures Chain(Middle(parts, p, q), Width(parts[..p], |s|))
    ensures Chain(parts[|parts| - q..], Width(Middle(parts, p, q), Width(parts[..p], |s|)))
    ensures RunParts(parts, calls, s)
      == RunParts(parts[|parts| - q..], calls, RunParts(Middle(parts, p, q), calls, RunParts(parts[..p], calls, s)))
  {
    var a, b, c := parts[..p], Middle(parts, p, q), parts[|parts| - q..];
    assert parts == a + (b + c);
    PartsJoin(a, b + c, calls, s);
    PartsJoin(b, c, calls, RunParts(a, calls, s));
  }

  /** What is left after peeling proves the whole. */
  lemma PeelProves(l: Tree, r: Tree, p: nat, q: nat, width: nat, calls: Interp)
    requires l.Ok() && r.Ok() && l.Effect() == r.Effect() && Peels(Spine(l), Spine(r), p, q)
    requires width == Width(Spine(l)[..p], l.Effect().inputs)
    requires Agree(Rebuilt(Middle(Spine(l), p, q), width), Rebuilt(Middle(Spine(r), p, q), width), calls)
    ensures Agree(l, r, calls)
  {
    hide Run; hide RunParts; hide Chain; hide Width; hide Spine; hide Rebuilt; hide Tree.Effect; hide Tree.Ok;
    hide Middle;
    var n := l.Effect().inputs;
    SpineChains(l);
    SpineChains(r);
    PeeledShapes(Spine(l), Spine(r), n, p, q);
    RebuiltRuns(Middle(Spine(l), p, q), width, calls);
    RebuiltRuns(Middle(Spine(r), p, q), width, calls);
    forall s: seq<Value> | |s| == n ensures Run(l, calls, s) == Run(r, calls, s) {
      SpineRuns(l, calls, s);
      SpineRuns(r, calls, s);
      MiddleRuns(Spine(l), p, q, calls, s);
      MiddleRuns(Spine(r), p, q, calls, s);
      var at := RunParts(Spine(l)[..p], calls, s);
      assert Run(Rebuilt(Middle(Spine(l), p, q), width), calls, at) == RunParts(Middle(Spine(l), p, q), calls, at);
    }
  }

  // ---- descending into arms ----

  lemma DescendProves(t1: Tree, e1: Tree, t2: Tree, e2: Tree, calls: Interp)
    requires Agree(t1, t2, calls) && Agree(e1, e2, calls) && t1.Effect() == e1.Effect()
    ensures Agree(Tree.Branch(t1, e1), Tree.Branch(t2, e2), calls)
  {
    hide Run; hide Tree.Effect; hide Tree.Ok;
    var (l, r) := (Tree.Branch(t1, e1), Tree.Branch(t2, e2));
    BranchShape(t1, e1);
    BranchShape(t2, e2);
    forall s: seq<Value> | |s| == l.Effect().inputs ensures Run(l, calls, s) == Run(r, calls, s) {
      var top := |s| - 1;
      assert s == s[..top] + [s[top]];
      BranchRuns(t1, e1, calls, s[..top], s[top]);
      BranchRuns(t2, e2, calls, s[..top], s[top]);
    }
  }

  lemma ComposeAgrees(a: Tree, b: Tree, c: Tree, d: Tree, calls: Interp)
    requires Agree(a, c, calls) && Agree(b, d, calls) && a.Effect().outputs == b.Effect().inputs
    ensures Agree(Tree.Compose(a, b), Tree.Compose(c, d), calls)
  {
  }

  lemma ParAgrees(a: Tree, b: Tree, c: Tree, d: Tree, calls: Interp)
    requires Agree(a, c, calls) && Agree(b, d, calls)
    ensures Agree(Tree.Par(a, b), Tree.Par(c, d), calls)
  {
    hide Run; hide Tree.Effect; hide Tree.Ok;
    ParShape(a, b);
    ParShape(c, d);
    forall s: seq<Value> | |s| == Tree.Par(a, b).Effect().inputs
      ensures Run(Tree.Par(a, b), calls, s) == Run(Tree.Par(c, d), calls, s)
    {
      var x, y := s[..a.Effect().inputs], s[a.Effect().inputs..];
      assert s == x + y;
      ParRuns(a, b, calls, x, y);
      ParRuns(c, d, calls, x, y);
    }
  }

  // ---- opening calls ----

  /** Whether there is a call here at all, or one to the sentence a label named. */
  predicate HasCalls(t: Tree, only: Option<SentenceIndex>) {
    match t
    case Call(target, _) => only == None || only == Some(target)
    case Compose(a, b) => HasCalls(a, only) || HasCalls(b, only)
    case Par(a, b) => HasCalls(a, only) || HasCalls(b, only)
    case Branch(a, b) => HasCalls(a, only) || HasCalls(b, only)
    case _ => false
  }

  /** There is a call to open exactly if one of the closed calls is one. */
  lemma {:induction false} CallsAreThere(t: Tree, only: Option<SentenceIndex>)
    ensures HasCalls(t, only) <==> exists call :: call in CallsOf(t) && Wanted(call.0, only)
  {
    match t
    case Call(target, arity) => assert (target, arity) in CallsOf(t);
    case Compose(a, b) => CallsAreThere(a, only); CallsAreThere(b, only); InEither(t, a, b, only);
    case Par(a, b) => CallsAreThere(a, only); CallsAreThere(b, only); InEither(t, a, b, only);
    case Branch(a, b) => CallsAreThere(a, only); CallsAreThere(b, only); InEither(t, a, b, only);
    case _ =>
  }

  predicate Wanted(target: SentenceIndex, only: Option<SentenceIndex>) {
    only == None || only == Some(target)
  }

  lemma InEither(t: Tree, a: Tree, b: Tree, only: Option<SentenceIndex>)
    requires t == Tree.Compose(a, b) || t == Tree.Par(a, b) || t == Tree.Branch(a, b)
    ensures (exists call :: call in CallsOf(t) && Wanted(call.0, only))
      == ((exists call :: call in CallsOf(a) && Wanted(call.0, only))
          || exists call :: call in CallsOf(b) && Wanted(call.0, only))
  {
    assert CallsOf(t) == CallsOf(a) + CallsOf(b);
    hide CallsOf; hide Wanted;
  }

  /** Every call carries the arity its sentence has. */
  ghost predicate Honest(lib: Library, c: Certificate, t: Tree) {
    match t
    case Call(target, arity) => Covered(lib, c, target) && arity == c.arities[target]
    case Compose(a, b) => Honest(lib, c, a) && Honest(lib, c, b)
    case Par(a, b) => Honest(lib, c, a) && Honest(lib, c, b)
    case Branch(a, b) => Honest(lib, c, a) && Honest(lib, c, b)
    case _ => true
  }

  /** An upper bound on how many layers of calls there are to open. */
  ghost function Height(lib: Library, c: Certificate, t: Tree): nat
    requires Honest(lib, c, t)
  {
    match t
    case Call(target, _) => c.ranks[target] + 1
    case Compose(a, b) => Max(Height(lib, c, a), Height(lib, c, b))
    case Par(a, b) => Max(Height(lib, c, a), Height(lib, c, b))
    case Branch(a, b) => Max(Height(lib, c, a), Height(lib, c, b))
    case _ => 0
  }

  function Max(a: nat, b: nat): nat {
    if a < b then b else a
  }

  /** Honest, and nothing called from it reaches as high as `bound`. */
  ghost predicate Beneath(lib: Library, c: Certificate, t: Tree, bound: nat) {
    Honest(lib, c, t) && Height(lib, c, t) <= bound
  }

  lemma ComposedBeneath(lib: Library, c: Certificate, l: Tree, r: Tree, bound: nat)
    requires Beneath(lib, c, l, bound) && Beneath(lib, c, r, bound)
    ensures Beneath(lib, c, Composed(l, r), bound)
  {
    hide Tree.Effect; hide Covered; hide Widened;
    var (have, want) := (l.Effect().outputs, r.Effect().inputs);
    if have < want {
      WidenedBeneath(lib, c, l, want - have, bound);
      PairBeneath(lib, c, Widened(l, want - have), r, bound);
    } else {
      WidenedBeneath(lib, c, r, have - want, bound);
      PairBeneath(lib, c, l, Widened(r, have - want), bound);
    }
  }

  lemma BranchedBeneath(lib: Library, c: Certificate, t: Tree, f: Tree, bound: nat)
    requires Beneath(lib, c, t, bound) && Beneath(lib, c, f, bound)
    ensures Branched(t, f).Ok? ==> Beneath(lib, c, Branched(t, f).value, bound)
  {
    hide Tree.Effect; hide Covered; hide Widened;
    var (n, m) := (t.Effect().inputs, f.Effect().inputs);
    if n < m {
      WidenedBeneath(lib, c, t, m - n, bound);
      PairBeneath(lib, c, Widened(t, m - n), f, bound);
    } else {
      WidenedBeneath(lib, c, f, n - m, bound);
      PairBeneath(lib, c, t, Widened(f, n - m), bound);
    }
  }

  lemma WidenedBeneath(lib: Library, c: Certificate, t: Tree, n: nat, bound: nat)
    requires Beneath(lib, c, t, bound)
    ensures Beneath(lib, c, Widened(t, n), bound)
  {
    PairBeneath(lib, c, Tree.Id(n), t, bound);
  }

  lemma PairBeneath(lib: Library, c: Certificate, a: Tree, b: Tree, bound: nat)
    requires Honest(lib, c, a) && Height(lib, c, a) <= bound && Honest(lib, c, b) && Height(lib, c, b) <= bound
    ensures Beneath(lib, c, Tree.Compose(a, b), bound)
    ensures Beneath(lib, c, Tree.Par(a, b), bound)
    ensures Beneath(lib, c, Tree.Branch(a, b), bound)
  {
  }

  /** A lowered sentence calls only below itself, by the arities its callees have. */
  lemma {:induction false} SentenceBeneath(lib: Library, c: Certificate, s: SentenceIndex)
    requires Covered(lib, c, s)
    ensures Beneath(lib, c, LowerSentence(lib, c, s), c.ranks[s])
    decreases c.ranks[s], 2
  {
    hide LowerPrefix;
    PrefixBeneath(lib, c, s, |lib.sentences[s]|);
  }

  lemma {:induction false} PrefixBeneath(lib: Library, c: Certificate, s: SentenceIndex, k: nat)
    requires Covered(lib, c, s) && k <= |lib.sentences[s]|
    ensures LowerPrefix(lib, c, s, k).Some? ==> Beneath(lib, c, LowerPrefix(lib, c, s, k).value, c.ranks[s])
    decreases c.ranks[s], 1, k
  {
    hide LowerPrefix; hide LowerInst; hide LowerSentence; hide Beneath; hide Composed;
    hide Library.Closed; hide Justified; hide PrefixEffect; hide InstEffect; hide Tree.Ok; hide Tree.Effect;
    PrefixGrows(lib, c, s, k);
    if k > 0 {
      InstBeneath(lib, c, s, k - 1);
      PrefixBeneath(lib, c, s, k - 1);
      if k > 1 {
        ComposedBeneath(lib, c, LowerPrefix(lib, c, s, k - 1).value, LowerInst(lib, c, s, k - 1), c.ranks[s]);
      }
    }
  }

  lemma {:induction false} InstBeneath(lib: Library, c: Certificate, s: SentenceIndex, ip: nat)
    requires Covered(lib, c, s) && ip < |lib.sentences[s]|
    ensures Beneath(lib, c, LowerInst(lib, c, s, ip), c.ranks[s])
    decreases c.ranks[s], 1, ip
  {
    hide LowerTarget; hide Branched;
    InstHasEffect(lib, c, s, ip);
    match lib.sentences[s][ip] {
      case Jump(t) => TargetBeneath(lib, c, t);
      case Dip(t) =>
        TargetBeneath(lib, c, t);
        PairBeneath(lib, c, LowerTarget(lib, c, t), Tree.Id(1), c.ranks[s]);
      case Branch(t, f) =>
        TargetBeneath(lib, c, t);
        TargetBeneath(lib, c, f);
        BranchedBeneath(lib, c, LowerTarget(lib, c, t), LowerTarget(lib, c, f), c.ranks[s]);
      case _ =>
    }
  }

  lemma {:induction false} TargetBeneath(lib: Library, c: Certificate, t: SentenceIndex)
    requires Covered(lib, c, t)
    ensures Beneath(lib, c, LowerTarget(lib, c, t), c.ranks[t] + 1)
    decreases c.ranks[t], 3
  {
    SentenceBeneath(lib, c, t);
  }

  /** What sits low enough holds no call to a sentence as high as this one. */
  lemma {:induction false} NoCallTo(lib: Library, c: Certificate, t: Tree, target: SentenceIndex)
    requires Honest(lib, c, t) && target in c.ranks && Height(lib, c, t) <= c.ranks[target]
    ensures !HasCalls(t, Some(target))
  {
    match t
    case Compose(a, b) => NoCallTo(lib, c, a, target); NoCallTo(lib, c, b, target);
    case Par(a, b) => NoCallTo(lib, c, a, target); NoCallTo(lib, c, b, target);
    case Branch(a, b) => NoCallTo(lib, c, a, target); NoCallTo(lib, c, b, target);
    case _ =>
  }

  /** Opening a call changes nothing, the calls read as the library has them. */
  lemma CallOpens(lib: Library, c: Certificate, t: SentenceIndex)
    requires Covered(lib, c, t)
    ensures Agree(Tree.Call(t, c.arities[t]), LowerSentence(lib, c, t), LibraryCalls(lib, c))
  {
    hide LibraryCalls; hide LowerSentence; hide Run;
    forall args: seq<Value> | |args| == c.arities[t].inputs
      ensures Run(Tree.Call(t, c.arities[t]), LibraryCalls(lib, c), args)
        == Run(LowerSentence(lib, c, t), LibraryCalls(lib, c), args)
    {
      CallMeans(lib, c, t, args);
    }
  }
}
