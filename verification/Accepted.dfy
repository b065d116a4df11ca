/** What is accepted settles: a certificate of the finished library read back as facts about the words. */
module Accepted {
  import opened Values
  import opened Terms
  import opened Libraries
  import opened Lowering
  import opened Surface
  import opened Emitting
  import opened Expansions
  import opened Balances
  import opened Drafts
  import opened EarlyReturns
  import opened Settling
  import opened Accepting

  // ---- what a certificate has seen of a body ----

  /**
   * The certificate covers everything the body calls, each label ranked below `r`; the arms of each branch change
   * the height alike, and each `?` branches to one of the early returns from `lo` to `hi`.
   */
  ghost predicate Seen(c: Certificate, d: Draft, p: Program, lo: nat, hi: nat, r: nat, body: Body)
    requires lo <= hi <= |d.early|
    decreases body
  {
    body != [] ==>
      && Seen(c, d, p, lo, hi, r, body[1..])
      && if body[0].Try? then TailSeen(c, d, p, lo, hi, body[1..]) else SeenWord(c, d, p, lo, hi, r, body[0])
  }

  ghost predicate TailSeen(c: Certificate, d: Draft, p: Program, lo: nat, hi: nat, rest: Body)
    requires lo <= hi <= |d.early|
  {
    exists j: nat :: lo <= j < hi && TrySeen(c, d, p, lo, hi, j, rest)
  }

  ghost predicate TrySeen(c: Certificate, d: Draft, p: Program, lo: nat, hi: nat, j: nat, rest: Body)
    requires lo <= hi <= |d.early| && j < |d.early|
  {
    && d.early[j].rest in c.arities && d.early[j].fail in c.arities
    && c.arities[d.early[j].rest].Net() == c.arities[d.early[j].fail].Net() == NetOf(p.nets, rest)
    && d.early[j].rest in d.code && Renders(Emit(Span(d, lo, hi)), p.ok, rest, d.code[d.early[j].rest])
  }

  ghost predicate SeenWord(c: Certificate, d: Draft, p: Program, lo: nat, hi: nat, r: nat, word: Word)
    requires lo <= hi <= |d.early|
    decreases word
  {
    match word
    case Jump(t) => SeenTarget(c, d, p, lo, hi, r, t)
    case Dip(_, t) => SeenTarget(c, d, p, lo, hi, r, t)
    case Branch(t, f) =>
      && SeenTarget(c, d, p, lo, hi, r, t) && SeenTarget(c, d, p, lo, hi, r, f)
      && NetOfTarget(p.nets, t) == NetOfTarget(p.nets, f)
    case Check(Sentence(s)) => SeenLabel(c, p, r, s)
    case _ => true
  }

  ghost predicate SeenTarget(c: Certificate, d: Draft, p: Program, lo: nat, hi: nat, r: nat, target: Target)
    requires lo <= hi <= |d.early|
    decreases target
  {
    match target
    case Label(s) => SeenLabel(c, p, r, s)
    case Inline(body) => Seen(c, d, p, lo, hi, r, body)
  }

  ghost predicate SeenLabel(c: Certificate, p: Program, r: nat, s: SentenceIndex) {
    s < |p.nets| && s in c.arities && s in c.ranks && c.ranks[s] < r
  }

  // ---- covered code has been seen ----

  lemma PlacedHolds(lib: Library, c: Certificate, p: Program, d: Draft)
    requires Placed(lib, p, Emit(d)) && Certifies(lib, c)
    ensures Holds(lib, c, d.code) && |p.nets| == |p.bodies| == d.named
  {
  }

  lemma {:induction false} TargetIsSeen(
    lib: Library, c: Certificate, p: Program, d: Draft, lo: nat, hi: nat, r: nat, target: Target, t: SentenceIndex)
    requires lo <= hi <= |d.early| && Placed(lib, p, Emit(d)) && Covered(lib, c, t) && t in c.ranks && c.ranks[t] < r
    requires Resolves(Emit(Span(d, lo, hi)), p.ok, target, t)
    ensures SeenTarget(c, d, p, lo, hi, r, target)
    decreases c.ranks[t], Size(target), 0
  {
    hide Certifies; hide Library.Closed; hide Renders; hide Seen;
    PlacedHolds(lib, c, p, d);
    hide Placed;
    if target.Inline? {
      InRange(lib, c, t);
      assert lib.sentences[t][0..] == d.code[t];
      BodyIsSeen(lib, c, p, d, lo, hi, r, t, 0, target.body);
    }
  }

  lemma {:induction false} WordIsSeen(
    lib: Library, c: Certificate, p: Program, d: Draft, lo: nat, hi: nat, r: nat, s: SentenceIndex, ip: nat, word: Word)
    requires lo <= hi <= |d.early| && Placed(lib, p, Emit(d)) && Covered(lib, c, s) && s in c.ranks && c.ranks[s] <= r
    requires !word.Try? && ip + Length(word) <= |lib.sentences[s]|
    requires RendersWord(Emit(Span(d, lo, hi)), p.ok, word, lib.sentences[s][ip..ip + Length(word)])
    ensures SeenWord(c, d, p, lo, hi, r, word)
    decreases c.ranks[s], 0, 1
  {
    hide NetAt; hide NetHere; hide Certifies; hide Library.Closed; hide Renders; hide Resolves; hide SeenTarget;
    PlacedHolds(lib, c, p, d);
    hide Placed;
    InRange(lib, c, s);
    if Length(word) == 1 {
      var inst := lib.sentences[s][ip];
      assert lib.sentences[s][ip..ip + 1] == [inst];
      NetOfInst(lib, c, s, ip);
      match word
      case Jump(target) => TargetIsSeen(lib, c, p, d, lo, hi, r, target, inst.target);
      case Dip(depth, target) =>
        var t :| Framed(d.code, depth, t, [inst][0]) && Resolves(Emit(Span(d, lo, hi)), p.ok, target, t);
        FrameNet(lib, c, d.code, s, ip, depth, t);
        TargetIsSeen(lib, c, p, d, lo, hi, r, target, t);
      case Branch(yes, no) =>
        TargetIsSeen(lib, c, p, d, lo, hi, r, yes, inst.ifTrue);
        TargetIsSeen(lib, c, p, d, lo, hi, r, no, inst.ifFalse);
        SpanNet(lib, c, p, d, lo, hi, yes, inst.ifTrue);
        SpanNet(lib, c, p, d, lo, hi, no, inst.ifFalse);
      case _ =>
    }
  }

  lemma SpanNet(
    lib: Library, c: Certificate, p: Program, d: Draft, lo: nat, hi: nat, target: Target, t: SentenceIndex)
    requires lo <= hi <= |d.early| && Placed(lib, p, Emit(d)) && Covered(lib, c, t)
    requires Resolves(Emit(Span(d, lo, hi)), p.ok, target, t)
    ensures c.arities[t].Net() == NetOfTarget(p.nets, target)
  {
    hide Placed; hide Resolves; hide Certifies;
    SpanWithin(d, lo, hi);
    ResolvesStays(Emit(Span(d, lo, hi)), Emit(d), p.ok, target, t);
    ResolvedNet(lib, c, p, Emit(d), target, t);
  }

  lemma SpanWithin(d: Draft, lo: nat, hi: nat)
    requires lo <= hi <= |d.early|
    ensures Emit(Span(d, lo, hi)).Within(Emit(d))
  {
    forall x: EarlyReturn | x in d.early[lo..hi] ensures x in d.early {
    }
  }

  lemma {:induction false} BodyIsSeen(
    lib: Library, c: Certificate, p: Program, d: Draft, lo: nat, hi: nat, r: nat, s: SentenceIndex, ip: nat, body: Body)
    requires lo <= hi <= |d.early| && Placed(lib, p, Emit(d)) && Covered(lib, c, s) && s in c.ranks && c.ranks[s] <= r
    requires s < |lib.sentences| && ip <= |lib.sentences[s]|
    requires Renders(Emit(Span(d, lo, hi)), p.ok, body, lib.sentences[s][ip..])
    ensures Seen(c, d, p, lo, hi, r, body)
    decreases c.ranks[s], |body|, 0
  {
    hide Certifies; hide Library.Closed; hide RendersWord; hide SeenWord; hide Placed; hide TailSeen;
    if body != [] {
      if body[0].Try? {
        TryIsSeen(lib, c, p, d, lo, hi, r, s, ip, body);
      } else {
        var n := Length(body[0]);
        assert lib.sentences[s][ip..][..n] == lib.sentences[s][ip..ip + n];
        assert lib.sentences[s][ip..][n..] == lib.sentences[s][ip + n..];
        WordIsSeen(lib, c, p, d, lo, hi, r, s, ip, body[0]);
        BodyIsSeen(lib, c, p, d, lo, hi, r, s, ip + n, body[1..]);
      }
    }
  }

  lemma {:induction false} TryIsSeen(
    lib: Library, c: Certificate, p: Program, d: Draft, lo: nat, hi: nat, r: nat, s: SentenceIndex, ip: nat, body: Body)
    requires lo <= hi <= |d.early| && Placed(lib, p, Emit(d)) && Covered(lib, c, s) && s in c.ranks && c.ranks[s] <= r
    requires s < |lib.sentences| && ip <= |lib.sentences[s]| && body != [] && body[0].Try?
    requires Renders(Emit(Span(d, lo, hi)), p.ok, body, lib.sentences[s][ip..])
    ensures Seen(c, d, p, lo, hi, r, body[1..])
    ensures TailSeen(c, d, p, lo, hi, body[1..])
    decreases c.ranks[s], 0, 1
  {
    hide NetAt; hide NetHere; hide Certifies; hide Library.Closed; hide RendersWord;
    var e, rest := Emit(Span(d, lo, hi)), body[1..];
    PlacedHolds(lib, c, p, d);
    AskedShape(lib, c, e, p.ok, s, ip);
    assert lib.sentences[s][ip..][5] == lib.sentences[s][ip + 5];
    var (t, f) := (lib.sentences[s][ip + 5].ifTrue, lib.sentences[s][ip + 5].ifFalse);
    NetOfInst(lib, c, s, ip + 5);
    assert lib.sentences[t][0..] == e.code[t];
    BodyIsSeen(lib, c, p, d, lo, hi, r, t, 0, rest);
    SpanNet(lib, c, p, d, lo, hi, Inline(rest), t);
    var j := ExitAt(d, lo, hi, t, f);
    assert TrySeen(c, d, p, lo, hi, j, rest);
  }

  lemma ExitAt(d: Draft, lo: nat, hi: nat, t: SentenceIndex, f: SentenceIndex) returns (j: nat)
    requires lo <= hi <= |d.early| && (t, f) in Emit(Span(d, lo, hi)).exits
    ensures lo <= j < hi && d.early[j].rest == t && d.early[j].fail == f
  {
    var y: EarlyReturn :| y in d.early[lo..hi] && (y.rest, y.fail) == (t, f);
    var i: nat :| i < |d.early[lo..hi]| && d.early[lo..hi][i] == y;
    j := lo + i;
  }

  // ---- what has been seen is level ----

  lemma {:induction false} SeenIsLevel(
    c: Certificate, d: Draft, p: Program, lo: nat, hi: nat, r: nat, rank: seq<nat>, body: Body)
    requires lo <= hi <= |d.early| && Seen(c, d, p, lo, hi, r, body) && RanksOf(c, rank) && |rank| == |p.nets|
    ensures Level(p.nets, body) && CallsBelow(rank, r, body)
    decreases body
  {
    hide SeenWord; hide LevelWord; hide WordBelow; hide TailSeen;
    if body != [] {
      SeenIsLevel(c, d, p, lo, hi, r, rank, body[1..]);
      if body[0].Try? {
        TryIsLevel(p.nets, rank, r);
      } else {
        SeenWordIsLevel(c, d, p, lo, hi, r, rank, body[0]);
      }
      forall k | 0 <= k < |body| ensures LevelWord(p.nets, body[k]) && WordBelow(rank, r, body[k]) {
        if k > 0 {
          assert body[k] == body[1..][k - 1];
        }
      }
    }
  }

  lemma TryIsLevel(nets: seq<int>, rank: seq<nat>, r: nat)
    ensures LevelWord(nets, Try) && WordBelow(rank, r, Try)
  {
  }

  lemma {:induction false} SeenWordIsLevel(
    c: Certificate, d: Draft, p: Program, lo: nat, hi: nat, r: nat, rank: seq<nat>, word: Word)
    requires lo <= hi <= |d.early| && SeenWord(c, d, p, lo, hi, r, word) && RanksOf(c, rank) && |rank| == |p.nets|
    ensures LevelWord(p.nets, word) && WordBelow(rank, r, word)
    decreases word
  {
    hide Seen; hide Level; hide CallsBelow;
    match word
    case Jump(t) => SeenTargetIsLevel(c, d, p, lo, hi, r, rank, t);
    case Dip(_, t) => SeenTargetIsLevel(c, d, p, lo, hi, r, rank, t);
    case Branch(t, f) =>
      SeenTargetIsLevel(c, d, p, lo, hi, r, rank, t);
      SeenTargetIsLevel(c, d, p, lo, hi, r, rank, f);
    case _ =>
  }

  lemma {:induction false} SeenTargetIsLevel(
    c: Certificate, d: Draft, p: Program, lo: nat, hi: nat, r: nat, rank: seq<nat>, target: Target)
    requires lo <= hi <= |d.early| && SeenTarget(c, d, p, lo, hi, r, target) && RanksOf(c, rank)
    requires |rank| == |p.nets|
    ensures LevelTarget(p.nets, target) && TargetBelow(rank, r, target)
    decreases target
  {
    if target.Inline? {
      SeenIsLevel(c, d, p, lo, hi, r, rank, target.body);
    }
  }

  /** The ranks a certificate gives the named sentences. */
  ghost predicate RanksOf(c: Certificate, rank: seq<nat>) {
    forall q | 0 <= q < |rank| :: q in c.ranks && rank[q] == c.ranks[q]
  }

  // ---- what has been seen of a `?` ----

  ghost predicate TailsSeen(c: Certificate, d: Draft, p: Program, lo: nat, hi: nat, tails: seq<Body>)
    requires lo <= hi <= |d.early|
  {
    forall k | 0 <= k < |tails| :: TailSeen(c, d, p, lo, hi, tails[k])
  }

  lemma TailsSeenJoin(c: Certificate, d: Draft, p: Program, lo: nat, hi: nat, a: seq<Body>, b: seq<Body>)
    requires lo <= hi <= |d.early| && TailsSeen(c, d, p, lo, hi, a) && TailsSeen(c, d, p, lo, hi, b)
    ensures TailsSeen(c, d, p, lo, hi, a + b)
  {
    hide TailSeen;
    forall k | 0 <= k < |a + b| ensures TailSeen(c, d, p, lo, hi, (a + b)[k]) {
      assert (a + b)[k] == if k < |a| then a[k] else b[k - |a|];
    }
  }

  /** Every `?` of a body has been seen to branch to an early return of its own. */
  lemma {:induction false} SeenTails(c: Certificate, d: Draft, p: Program, lo: nat, hi: nat, r: nat, body: Body)
    requires lo <= hi <= |d.early| && Seen(c, d, p, lo, hi, r, body)
    ensures TailsSeen(c, d, p, lo, hi, TailsOf(body))
    decreases body
  {
    hide SeenWord; hide TailSeen;
    if body != [] {
      SeenTails(c, d, p, lo, hi, r, body[1..]);
      if body[0].Try? {
        TailsSeenJoin(c, d, p, lo, hi, TailsOf(body[1..]), [body[1..]]);
      } else {
        SeenWordTails(c, d, p, lo, hi, r, body[0]);
        TailsSeenJoin(c, d, p, lo, hi, TailsOfWord(body[0]), TailsOf(body[1..]));
      }
    }
  }

  lemma {:induction false} SeenWordTails(
    c: Certificate, d: Draft, p: Program, lo: nat, hi: nat, r: nat, word: Word)
    requires lo <= hi <= |d.early| && SeenWord(c, d, p, lo, hi, r, word)
    ensures TailsSeen(c, d, p, lo, hi, TailsOfWord(word))
    decreases word
  {
    hide Seen; hide TailSeen;
    match word
    case Jump(t) => SeenTargetTails(c, d, p, lo, hi, r, t);
    case Dip(_, t) => SeenTargetTails(c, d, p, lo, hi, r, t);
    case Branch(t, f) =>
      SeenTargetTails(c, d, p, lo, hi, r, t);
      SeenTargetTails(c, d, p, lo, hi, r, f);
      TailsSeenJoin(c, d, p, lo, hi, TailsOfTarget(t), TailsOfTarget(f));
    case _ =>
  }

  lemma {:induction false} SeenTargetTails(
    c: Certificate, d: Draft, p: Program, lo: nat, hi: nat, r: nat, target: Target)
    requires lo <= hi <= |d.early| && SeenTarget(c, d, p, lo, hi, r, target)
    ensures TailsSeen(c, d, p, lo, hi, TailsOfTarget(target))
    decreases target
  {
    hide TailSeen;
    if target.Inline? {
      SeenTails(c, d, p, lo, hi, r, target.body);
    }
  }

  // ---- where a rest arm has an arity, what it reaches has had its turns ----

  /** A certificate from the turn of an early return of sentence `s`, before which later ones have had none. */
  ghost predicate Paused(x: Scene, c: Certificate, s: nat) {
    && Placed(x.lib, x.p, Emit(x.d)) && Timely(x.d, x.p.bodies, x.p.ok) && Descends(x.p.bodies, x.rank)
    && Certifies(x.lib, c) && s < |x.p.bodies| && x.i < Count(x.p.bodies, s + 1)
    && forall j: nat | x.i <= j < |x.d.early| ::
      x.d.early[j].fail < |x.lib.sentences| && x.lib.sentences[x.d.early[j].fail] == FailStart(x.p.err)
  }

  /** An early return that has had no turn is taken for one that drops nothing. */
  lemma LaterIsZero(x: Scene, c: Certificate, lo: nat, hi: nat, tail: Body)
    requires Certifies(x.lib, c) && lo <= hi <= |x.d.early| && TailSeen(c, x.d, x.p, lo, hi, tail)
    requires forall j: nat | lo <= j < |x.d.early| ::
      x.d.early[j].fail < |x.lib.sentences| && x.lib.sentences[x.d.early[j].fail] == FailStart(x.p.err)
    ensures NetOf(x.p.nets, tail) == 0
  {
    hide NetOf; hide Renders; hide Certifies; hide FailStart;
    var j: nat :| lo <= j < hi && TrySeen(c, x.d, x.p, lo, hi, j, tail);
    UnbalancedNet(x.lib, c, x.p.err, x.d.early[j].fail);
  }

  lemma LaterAreZero(x: Scene, c: Certificate, lo: nat, hi: nat, tails: seq<Body>)
    requires Certifies(x.lib, c) && lo <= hi <= |x.d.early| && TailsSeen(c, x.d, x.p, lo, hi, tails)
    requires forall j: nat | lo <= j < |x.d.early| ::
      x.d.early[j].fail < |x.lib.sentences| && x.lib.sentences[x.d.early[j].fail] == FailStart(x.p.err)
    ensures AllZero(x.p.nets, tails)
  {
    hide NetOf; hide TailSeen; hide Certifies; hide FailStart;
    forall k | 0 <= k < |tails| ensures NetOf(x.p.nets, tails[k]) == 0 {
      LaterIsZero(x, c, lo, hi, tails[k]);
    }
  }

  /** What a covered body reaches needs no drops, or has had them. */
  lemma {:induction false} SeenTop(
    x: Scene, c: Certificate, s: nat, lo: nat, hi: nat, rc: nat, r: nat, body: Body)
    requires Paused(x, c, s) && lo <= hi <= |x.d.early| && Seen(c, x.d, x.p, lo, hi, rc, body)
    requires CallsBelow(x.rank, r, body) && s < |x.rank| && r <= x.rank[s]
    ensures TopOf(x.p.bodies, x.p.nets, x.rank, r, body) <= s
    decreases r, 0, body
  {
    hide SeenWord; hide WordBelow; hide TailSeen; hide Paused; hide TopOfWord;
    PausedParts(x, c, s);
    if body != [] {
      BelowParts(x.rank, r, body);
      SeenTop(x, c, s, lo, hi, rc, r, body[1..]);
      if !body[0].Try? {
        SeenWordTop(x, c, s, lo, hi, rc, r, body[0]);
      } else {
        TryTop(x.p.bodies, x.p.nets, x.rank, r);
      }
    }
  }

  lemma TryTop(bodies: seq<Body>, nets: seq<int>, rank: seq<nat>, r: nat)
    requires Descends(bodies, rank)
    ensures WordBelow(rank, r, Try) && TopOfWord(bodies, nets, rank, r, Try) == 0
  {
  }

  lemma PausedParts(x: Scene, c: Certificate, s: nat)
    requires Paused(x, c, s)
    ensures Descends(x.p.bodies, x.rank) && |x.p.bodies| == |x.rank| == |x.p.nets| && s < |x.rank|
    ensures Placed(x.lib, x.p, Emit(x.d)) && Certifies(x.lib, c) && x.lib.Closed()
    ensures forall u: nat | u < |x.p.bodies| :: Rendered(x.d, x.p.bodies, x.p.ok, u)
  {
  }

  lemma {:induction false} SeenWordTop(
    x: Scene, c: Certificate, s: nat, lo: nat, hi: nat, rc: nat, r: nat, word: Word)
    requires Paused(x, c, s) && lo <= hi <= |x.d.early| && SeenWord(c, x.d, x.p, lo, hi, rc, word)
    requires WordBelow(x.rank, r, word) && s < |x.rank| && r <= x.rank[s] && Descends(x.p.bodies, x.rank)
    ensures TopOfWord(x.p.bodies, x.p.nets, x.rank, r, word) <= s
    decreases r, 0, word
  {
    hide Seen; hide CallsBelow; hide Paused; hide TopOf; hide TopOfNamed; hide Descends;
    match word
    case Jump(t) => SeenTargetTop(x, c, s, lo, hi, rc, r, t);
    case Dip(_, t) => SeenTargetTop(x, c, s, lo, hi, rc, r, t);
    case Branch(t, f) =>
      SeenTargetTop(x, c, s, lo, hi, rc, r, t);
      SeenTargetTop(x, c, s, lo, hi, rc, r, f);
    case Check(Sentence(u)) => SeenNamedTop(x, c, s, u);
    case _ =>
  }

  lemma {:induction false} SeenTargetTop(
    x: Scene, c: Certificate, s: nat, lo: nat, hi: nat, rc: nat, r: nat, target: Target)
    requires Paused(x, c, s) && lo <= hi <= |x.d.early| && SeenTarget(c, x.d, x.p, lo, hi, rc, target)
    requires TargetBelow(x.rank, r, target) && s < |x.rank| && r <= x.rank[s] && Descends(x.p.bodies, x.rank)
    ensures TopOfTarget(x.p.bodies, x.p.nets, x.rank, r, target) <= s
    decreases r, 0, target
  {
    hide Paused; hide TopOf; hide TopOfNamed; hide Descends;
    match target
    case Label(u) => SeenNamedTop(x, c, s, u);
    case Inline(body) => SeenTop(x, c, s, lo, hi, rc, r, body);
  }

  lemma {:induction false} SeenNamedTop(x: Scene, c: Certificate, s: nat, u: nat)
    requires Paused(x, c, s) && Descends(x.p.bodies, x.rank) && s < |x.rank| && u < |x.rank| && x.rank[u] < x.rank[s]
    requires u in c.arities && u in c.ranks
    ensures TopOfNamed(x.p.bodies, x.p.nets, x.rank, u) <= s
    decreases x.rank[u], 1
  {
    hide *;
    PausedParts(x, c, s);
    var lo, hi := NamedSeen(x, c, s, u);
    DescendsAt(x.p.bodies, x.rank, u);
    SeenTop(x, c, s, lo, hi, c.ranks[u], x.rank[u], x.p.bodies[u]);
    TopIs(x.p.bodies, x.p.nets, x.rank, u, s);
  }

  lemma DescendsAt(bodies: seq<Body>, rank: seq<nat>, s: nat)
    requires Descends(bodies, rank) && s < |bodies|
    ensures s < |bodies| == |rank| && CallsBelow(rank, rank[s], bodies[s])
  {
  }

  lemma TopIs(bodies: seq<Body>, nets: seq<int>, rank: seq<nat>, u: nat, s: nat)
    requires Descends(bodies, rank) && u < |bodies| && CallsBelow(rank, rank[u], bodies[u])
    requires TopOf(bodies, nets, rank, rank[u], bodies[u]) <= s && u != s
    requires u > s ==> AllZero(nets, TailsOf(bodies[u]))
    ensures TopOfNamed(bodies, nets, rank, u) <= s
  {
    hide AllZero; hide TopOf; hide Descends; hide CallsBelow; hide TailsOf;
  }

  /** A named sentence that is covered: all of its words seen, and no drops asked for if it comes later. */
  lemma NamedSeen(x: Scene, c: Certificate, s: nat, u: nat) returns (lo: nat, hi: nat)
    requires Paused(x, c, s) && u < |x.p.bodies| && u in c.arities && u in c.ranks
    ensures lo <= hi <= |x.d.early| && Seen(c, x.d, x.p, lo, hi, c.ranks[u], x.p.bodies[u])
    ensures u > s ==> AllZero(x.p.nets, TailsOf(x.p.bodies[u]))
  {
    hide *;
    PausedParts(x, c, s);
    lo, hi := RenderedAt(x.d, x.p.bodies, x.p.ok, u);
    PlacedAt(x.lib, x.p, x.d, u);
    CoveredNow(x.lib, c, u);
    BodyIsSeen(x.lib, c, x.p, x.d, lo, hi, c.ranks[u], u, 0, x.p.bodies[u]);
    SeenTails(c, x.d, x.p, lo, hi, c.ranks[u], x.p.bodies[u]);
    if u > s {
      LaterFails(x, c, s, u);
      LaterAreZero(x, c, lo, hi, TailsOf(x.p.bodies[u]));
    }
  }

  lemma CoveredNow(lib: Library, c: Certificate, t: SentenceIndex)
    requires lib.Closed() && Certifies(lib, c) && t in c.arities
    ensures Covered(lib, c, t) && t in c.ranks
  {
  }

  lemma RenderedAt(d: Draft, bodies: seq<Body>, ok: Value, u: nat) returns (lo: nat, hi: nat)
    requires u < |bodies| && Rendered(d, bodies, ok, u)
    ensures lo == Count(bodies, u) && hi == Count(bodies, u + 1) && lo <= hi <= |d.early| && u in d.code
    ensures Renders(Emit(Span(d, lo, hi)), ok, bodies[u], d.code[u])
  {
    hide Renders;
    lo, hi := Count(bodies, u), Count(bodies, u + 1);
  }

  lemma LaterFails(x: Scene, c: Certificate, s: nat, u: nat)
    requires Paused(x, c, s) && s < u < |x.p.bodies|
    ensures forall j: nat | Count(x.p.bodies, u) <= j < |x.d.early| ::
      x.d.early[j].fail < |x.lib.sentences| && x.lib.sentences[x.d.early[j].fail] == FailStart(x.p.err)
  {
    hide Placed; hide Timely; hide Descends; hide Certifies; hide FailStart;
    CountGrows(x.p.bodies, s + 1, u);
  }

  lemma PlacedAt(lib: Library, p: Program, d: Draft, t: SentenceIndex)
    requires Placed(lib, p, Emit(d)) && t in d.code
    ensures t < |lib.sentences| && lib.sentences[t] == d.code[t] && lib.sentences[t][0..] == d.code[t]
  {
  }

  // ---- an accepted program settles ----

  /** The stages of a draft's library, with the program in place at each. */
  ghost predicate Staged(d: Draft, p: Program, stages: seq<Library>) {
    && Fine(d, p.err) && Timely(d, p.bodies, p.ok) && |stages| == |d.early| + 1
    && (forall k: nat | k < |stages| :: Stage(stages[k], p.err, d.early, k) && Placed(stages[k], p, Emit(d)))
    && forall k: nat | k < |d.early| :: Turn(stages[k], stages[k + 1], d.early[k])
  }

  lemma StagedSize(d: Draft, p: Program, stages: seq<Library>)
    requires Staged(d, p, stages)
    ensures |stages| == |d.early| + 1
  {
  }

  lemma StagedAt(d: Draft, p: Program, stages: seq<Library>, k: nat)
    requires Staged(d, p, stages) && k < |stages|
    ensures Stage(stages[k], p.err, d.early, k) && Placed(stages[k], p, Emit(d)) && stages[k].Closed()
    ensures k + 1 < |stages| ==> Turn(stages[k], stages[k + 1], d.early[k])
    ensures Fine(d, p.err) && Timely(d, p.bodies, p.ok) && |stages| == |d.early| + 1
  {
  }

  /** A failing arm whose rest arm had no arity at its turn is never finished. */
  lemma {:induction false} NeverFinished(d: Draft, p: Program, stages: seq<Library>, j: nat, m: nat)
    requires Staged(d, p, stages) && j < m < |stages| && !Reckons(stages[j], d.early[j].rest)
    ensures d.early[j].fail < |stages[m].sentences| && stages[m].sentences[d.early[j].fail] == FailStart(p.err)
    decreases m
  {
    hide *;
    StagedAt(d, p, stages, m - 1);
    if m == j + 1 {
      StageParts(stages[j], p.err, d.early, j);
      TurnSkips(stages[j], stages[j + 1], d.early[j]);
    } else {
      NeverFinished(d, p, stages, j, m - 1);
      TurnSpares(d, p.err, stages[m - 1], stages[m - 1 + 1], m - 1, j);
    }
  }

  lemma TurnSkips(before: Library, later: Library, x: EarlyReturn)
    requires Turn(before, later, x) && !Reckons(before, x.rest)
    ensures later == before
  {
  }

  lemma TurnSpares(d: Draft, err: Value, before: Library, later: Library, k: nat, j: nat)
    requires Fine(d, err) && k < |d.early| && j < |d.early| && j != k && Turn(before, later, d.early[k])
    requires d.early[j].fail < |before.sentences|
    ensures d.early[j].fail < |later.sentences|
    ensures later.sentences[d.early[j].fail] == before.sentences[d.early[j].fail]
  {
    FailsApart(d, err, k);
    hide *;
    if Reckons(before, d.early[k].rest) {
      var c, drop, n := TurnBalances(before, later, d.early[k]);
      BalancedSpares(before, later, d.early[k], c, drop, n, d.early[j].fail);
    } else {
      TurnSkips(before, later, d.early[k]);
    }
  }

  lemma TurnBalances(before: Library, later: Library, x: EarlyReturn)
    returns (c: Certificate, drop: SentenceIndex, k: nat)
    requires Turn(before, later, x) && Reckons(before, x.rest)
    ensures Balanced(before, later, x, c, drop, k)
  {
    hide Balanced; hide Reckons;
    c, drop, k :| Balanced(before, later, x, c, drop, k);
  }

  lemma BalancedSpares(
    before: Library, later: Library, x: EarlyReturn, c: Certificate, drop: SentenceIndex, k: nat, f: SentenceIndex)
    requires Balanced(before, later, x, c, drop, k) && f < |before.sentences| && f != x.fail
    ensures f < |later.sentences| && later.sentences[f] == before.sentences[f]
  {
    hide Certifies;
  }

  /** At its turn an early return that ends with drops has a rest arm that reaches no later sentence in need of any. */
  lemma ReachesEarlier(x: Scene, stages: seq<Library>, s: nat, lo: nat, hi: nat, j: nat, tail: Body)
    requires Staged(x.d, x.p, stages) && Descends(x.p.bodies, x.rank) && s < |x.p.bodies|
    requires lo <= j < hi <= |x.d.early| && hi <= Count(x.p.bodies, s + 1)
    requires Reckons(stages[j], x.d.early[j].rest) && x.d.early[j].rest in x.d.code
    requires Renders(Emit(Span(x.d, lo, hi)), x.p.ok, tail, x.d.code[x.d.early[j].rest])
    requires CallsBelow(x.rank, x.rank[s], tail)
    ensures TopOf(x.p.bodies, x.p.nets, x.rank, x.rank[s], tail) <= s
  {
    StagedAt(x.d, x.p, stages, j);
    hide Staged; hide Fine; hide Timely; hide Placed; hide Renders; hide CallsBelow; hide Descends; hide Certifies;
    hide TopOf; hide Seen;
    var c: Certificate :| Certifies(stages[j], c) && x.d.early[j].rest in c.arities;
    var y := x.(lib := stages[j], i := j);
    NowPaused(y, c, s);
    var t := x.d.early[j].rest;
    PlacedAt(y.lib, x.p, x.d, t);
    InRange(y.lib, c, t);
    BodyIsSeen(y.lib, c, x.p, x.d, lo, hi, c.ranks[t], t, 0, tail);
    PausedParts(y, c, s);
    SeenTop(y, c, s, lo, hi, c.ranks[t], x.rank[s], tail);
  }

  lemma NowPaused(x: Scene, c: Certificate, s: nat)
    requires Placed(x.lib, x.p, Emit(x.d)) && Timely(x.d, x.p.bodies, x.p.ok) && Descends(x.p.bodies, x.rank)
    requires Certifies(x.lib, c) && s < |x.p.bodies| && x.i < Count(x.p.bodies, s + 1)
    requires Stage(x.lib, x.p.err, x.d.early, x.i)
    ensures Paused(x, c, s)
  {
    hide Placed; hide Timely; hide Descends; hide Certifies;
  }

  /** What follows a `?` of an accepted program takes no less than it leaves; where it takes more it reaches earlier. */
  lemma TailIsSettled(
    x: Scene, c: Certificate, stages: seq<Library>, s: nat, lo: nat, hi: nat, tail: Body)
    requires Staged(x.d, x.p, stages) && Descends(x.p.bodies, x.rank) && s < |x.p.bodies|
    requires x.lib == stages[|x.d.early|] && Certifies(x.lib, c) && x.lib.Closed()
    requires lo <= hi <= |x.d.early| && hi <= Count(x.p.bodies, s + 1) && TailSeen(c, x.d, x.p, lo, hi, tail)
    requires forall j: nat | j < |x.d.early| :: Salvaging(x.lib, x.p.err, x.d.early[j].fail)
    requires TopsOf(x.p.bodies, x.p.nets, x.rank, x.top) && CallsBelow(x.rank, x.rank[s], tail)
    ensures NetOf(x.p.nets, tail) <= 0
    ensures NetOf(x.p.nets, tail) < 0 ==> CallsBelow(x.top, s + 1, tail)
  {
    hide Staged; hide Certifies; hide Renders; hide NetOf; hide CallsBelow; hide Descends; hide TopsOf; hide TopOf;
    hide Reckons; hide Library.Closed;
    var j: nat :| lo <= j < hi && TrySeen(c, x.d, x.p, lo, hi, j, tail);
    var f := x.d.early[j].fail;
    StagedSize(x.d, x.p, stages);
    StagedAt(x.d, x.p, stages, j);
    DescendsAt(x.p.bodies, x.rank, s);
    assert Salvaging(x.lib, x.p.err, f);
    var drop, k: nat :| Salvages(x.lib, x.p.err, f, drop, k);
    SalvageNet(x.lib, c, x.p.err, f, drop, k);
    assert |x.lib.sentences[f]| == 2 + k && |FailStart(x.p.err)| == 2;
    if k > 0 {
      if !Reckons(stages[j], x.d.early[j].rest) {
        NeverFinished(x.d, x.p, stages, j, |x.d.early|);
        assert false;
      }
      ReachesEarlier(x, stages, s, lo, hi, j, tail);
      TopIsAbove(x.p.bodies, x.p.nets, x.rank, x.top, s, x.rank[s], tail);
    }
  }

  lemma SentenceSettles(x: Scene, c: Certificate, stages: seq<Library>, s: nat)
    requires Staged(x.d, x.p, stages) && Descends(x.p.bodies, x.rank) && s < |x.p.bodies| == |x.p.nets|
    requires x.lib == stages[|x.d.early|] && Certifies(x.lib, c) && x.lib.Closed()
    requires s in c.arities && s in c.ranks && RanksOf(c, x.rank)
    requires forall j: nat | j < |x.d.early| :: Salvaging(x.lib, x.p.err, x.d.early[j].fail)
    requires TopsOf(x.p.bodies, x.p.nets, x.rank, x.top)
    ensures SettlesAt(x.p.bodies[s], s, x.p.nets, x.rank, x.top)
  {
    hide *;
    StagedSize(x.d, x.p, stages);
    StagedAt(x.d, x.p, stages, |x.d.early|);
    DescendsAt(x.p.bodies, x.rank, s);
    var lo, hi := NamedWindow(x.lib, c, x.p, x.d, x.rank, s);
    var body := x.p.bodies[s];
    SeenIsLevel(c, x.d, x.p, lo, hi, x.rank[s], x.rank, body);
    SeenTails(c, x.d, x.p, lo, hi, x.rank[s], body);
    TailsAreBelow(x.rank, x.rank[s], body);
    TopAt(x, s);
    TopIsAbove(x.p.bodies, x.p.nets, x.rank, x.top, x.top[s], x.rank[s], body);
    forall k | 0 <= k < |TailsOf(body)| ensures TailSettles(TailsOf(body)[k], s, x.p.nets, x.top) {
      TailAmong(c, x.d, x.p, lo, hi, x.rank, x.rank[s], TailsOf(body), k);
      TailIsSettled(x, c, stages, s, lo, hi, TailsOf(body)[k]);
      TailNowSettles(x, s, k);
    }
    NowSettlesAt(x, s);
  }

  lemma TopAt(x: Scene, s: nat)
    requires TopsOf(x.p.bodies, x.p.nets, x.rank, x.top) && s < |x.p.bodies| && Descends(x.p.bodies, x.rank)
    requires CallsBelow(x.rank, x.rank[s], x.p.bodies[s])
    ensures s < |x.top| == |x.p.bodies| && TopOf(x.p.bodies, x.p.nets, x.rank, x.rank[s], x.p.bodies[s]) <= x.top[s]
    ensures !AllZero(x.p.nets, TailsOf(x.p.bodies[s])) ==> s < x.top[s]
  {
    hide TopOf; hide AllZero; hide TailsOf; hide CallsBelow; hide Descends;
  }

  lemma TailAmong(
    c: Certificate, d: Draft, p: Program, lo: nat, hi: nat, rank: seq<nat>, r: nat, tails: seq<Body>, k: nat)
    requires lo <= hi <= |d.early| && TailsSeen(c, d, p, lo, hi, tails) && BelowAll(rank, r, tails) && k < |tails|
    ensures TailSeen(c, d, p, lo, hi, tails[k]) && CallsBelow(rank, r, tails[k])
  {
    hide TailSeen; hide CallsBelow;
  }

  lemma TailNowSettles(x: Scene, s: nat, k: nat)
    requires s < |x.top| == |x.p.bodies| && k < |TailsOf(x.p.bodies[s])|
    requires NetOf(x.p.nets, TailsOf(x.p.bodies[s])[k]) <= 0
    requires NetOf(x.p.nets, TailsOf(x.p.bodies[s])[k]) < 0 ==> CallsBelow(x.top, s + 1, TailsOf(x.p.bodies[s])[k])
    requires !AllZero(x.p.nets, TailsOf(x.p.bodies[s])) ==> s < x.top[s]
    ensures TailSettles(TailsOf(x.p.bodies[s])[k], s, x.p.nets, x.top)
  {
    hide CallsBelow; hide NetOf; hide TailsOf;
  }

  lemma NowSettlesAt(x: Scene, s: nat)
    requires s < |x.p.bodies| == |x.p.nets| == |x.rank| == |x.top|
    requires Level(x.p.nets, x.p.bodies[s]) && NetOf(x.p.nets, x.p.bodies[s]) == x.p.nets[s]
    requires CallsBelow(x.rank, x.rank[s], x.p.bodies[s]) && CallsBelow(x.top, x.top[s] + 1, x.p.bodies[s])
    requires forall k | 0 <= k < |TailsOf(x.p.bodies[s])| :: TailSettles(TailsOf(x.p.bodies[s])[k], s, x.p.nets, x.top)
    ensures SettlesAt(x.p.bodies[s], s, x.p.nets, x.rank, x.top)
  {
    hide CallsBelow; hide NetOf; hide TailsOf; hide Level; hide TailSettles;
  }

  lemma NamedWindow(lib: Library, c: Certificate, p: Program, d: Draft, rank: seq<nat>, s: nat)
    returns (lo: nat, hi: nat)
    requires Placed(lib, p, Emit(d)) && Timely(d, p.bodies, p.ok) && Certifies(lib, c) && s in c.arities && s in c.ranks
    requires s < |p.bodies| == |rank| && RanksOf(c, rank)
    ensures lo <= hi <= |d.early| && hi == Count(p.bodies, s + 1) && Seen(c, d, p, lo, hi, rank[s], p.bodies[s])
    ensures NetOf(p.nets, p.bodies[s]) == p.nets[s]
  {
    hide Renders; hide Seen; hide Certifies; hide Library.Closed; hide NetOf;
    assert Rendered(d, p.bodies, p.ok, s);
    lo, hi := Count(p.bodies, s), Count(p.bodies, s + 1);
    PlacedAt(lib, p, d, s);
    BodyIsSeen(lib, c, p, d, lo, hi, rank[s], s, 0, p.bodies[s]);
  }

  /** The nets and ranks of a certificate settle the words, with the least marks there are. */
  lemma AcceptedSettles(x: Scene, c: Certificate, stages: seq<Library>) returns (top: seq<nat>)
    requires Staged(x.d, x.p, stages) && x.lib == stages[|x.d.early|] && Certifies(x.lib, c)
    requires |x.p.bodies| == |x.p.nets| == |x.rank| && RanksOf(c, x.rank)
    requires forall s: nat | s < |x.p.bodies| :: s in c.arities
    requires forall j: nat | j < |x.d.early| :: Salvaging(x.lib, x.p.err, x.d.early[j].fail)
    ensures Settles(x.p.bodies, x.p.nets, x.rank, top)
  {
    hide *;
    StagedSize(x.d, x.p, stages);
    StagedAt(x.d, x.p, stages, |x.d.early|);
    AllDescend(x, c);
    top := Tops(x.p.bodies, x.p.nets, x.rank);
    var y := x.(top := top);
    forall s: nat | s < |x.p.bodies| ensures SettlesAt(x.p.bodies[s], s, x.p.nets, x.rank, top) {
      CoveredNow(x.lib, c, s);
      SentenceSettles(y, c, stages, s);
    }
    NowSettles(x.p.bodies, x.p.nets, x.rank, top);
  }

  lemma AllDescend(x: Scene, c: Certificate)
    requires Placed(x.lib, x.p, Emit(x.d)) && Timely(x.d, x.p.bodies, x.p.ok) && Certifies(x.lib, c)
    requires |x.p.bodies| == |x.p.nets| == |x.rank| && RanksOf(c, x.rank) && x.lib.Closed()
    requires forall s: nat | s < |x.p.bodies| :: s in c.arities
    ensures Descends(x.p.bodies, x.rank)
  {
    hide Placed; hide Timely; hide Certifies; hide RanksOf; hide CallsBelow; hide Library.Closed; hide Seen; hide NetOf;
    forall s | 0 <= s < |x.p.bodies| ensures CallsBelow(x.rank, x.rank[s], x.p.bodies[s]) {
      CoveredNow(x.lib, c, s);
      var lo, hi := NamedWindow(x.lib, c, x.p, x.d, x.rank, s);
      SeenIsLevel(c, x.d, x.p, lo, hi, x.rank[s], x.rank, x.p.bodies[s]);
    }
  }

  lemma Tops(bodies: seq<Body>, nets: seq<int>, rank: seq<nat>) returns (top: seq<nat>)
    requires Descends(bodies, rank)
    ensures TopsOf(bodies, nets, rank, top) && |top| == |bodies|
  {
    hide Descends; hide TopOfNamed;
    top := seq(|bodies|, (s: nat) requires s < |bodies| && Descends(bodies, rank) => TopOfNamed(bodies, nets, rank, s));
  }

  lemma NowSettles(bodies: seq<Body>, nets: seq<int>, rank: seq<nat>, top: seq<nat>)
    requires |bodies| == |nets| == |rank| == |top|
    requires forall s: nat | s < |bodies| :: SettlesAt(bodies[s], s, nets, rank, top)
    ensures Settles(bodies, nets, rank, top)
  {
    hide SettlesAt;
  }
}
