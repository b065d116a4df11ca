/** What a caller can check of the words of a program to know that it is accepted. */
module Settling {
  import opened Surface

  // ---- level bodies that call each other in an order ----

  /** Every label is of a sentence ranked below `r`. */
  predicate CallsBelow(rank: seq<nat>, r: nat, body: Body)
    decreases body
  {
    forall k | 0 <= k < |body| :: WordBelow(rank, r, body[k])
  }

  predicate WordBelow(rank: seq<nat>, r: nat, word: Word)
    decreases word
  {
    match word
    case Jump(t) => TargetBelow(rank, r, t)
    case Dip(_, t) => TargetBelow(rank, r, t)
    case Branch(t, f) => TargetBelow(rank, r, t) && TargetBelow(rank, r, f)
    case Check(Sentence(s)) => s < |rank| && rank[s] < r
    case _ => true
  }

  predicate TargetBelow(rank: seq<nat>, r: nat, target: Target)
    decreases target
  {
    match target
    case Label(s) => s < |rank| && rank[s] < r
    case Inline(body) => CallsBelow(rank, r, body)
  }

  predicate AllZero(nets: seq<int>, tails: seq<Body>) {
    forall k | 0 <= k < |tails| :: NetOf(nets, tails[k]) == 0
  }

  /**
   * What sentence `s` needs of its words. Its claimed net is what they leave, every branch is level, and calls go
   * down in the order `rank`. No `?` is followed by more than it takes. `top` is past every sentence reached from
   * here with an early return that needs drops, and what follows one of ours reaches only such as come earlier.
   */
  predicate SettlesAt(body: Body, s: nat, nets: seq<int>, rank: seq<nat>, top: seq<nat>)
    requires s < |nets| == |rank| == |top|
  {
    && Level(nets, body) && NetOf(nets, body) == nets[s]
    && CallsBelow(rank, rank[s], body) && CallsBelow(top, top[s] + 1, body)
    && forall k | 0 <= k < |TailsOf(body)| :: TailSettles(TailsOf(body)[k], s, nets, top)
  }

  predicate TailSettles(tail: Body, s: nat, nets: seq<int>, top: seq<nat>)
    requires s < |top|
  {
    NetOf(nets, tail) <= 0 && (NetOf(nets, tail) < 0 ==> s < top[s] && CallsBelow(top, s + 1, tail))
  }

  predicate Settles(bodies: seq<Body>, nets: seq<int>, rank: seq<nat>, top: seq<nat>) {
    && |bodies| == |nets| == |rank| == |top|
    && forall s | 0 <= s < |bodies| :: SettlesAt(bodies[s], s, nets, rank, top)
  }

  // ---- the tails of a program ----

  /** What follows each `?` of the first `n` sentences, sentence by sentence. */
  function AllTails(bodies: seq<Body>, n: nat): seq<Body>
    requires n <= |bodies|
  {
    if n == 0 then [] else AllTails(bodies, n - 1) + TailsOf(bodies[n - 1])
  }

  /** How many early returns come before those of sentence `n`. */
  function Count(bodies: seq<Body>, n: nat): nat
    requires n <= |bodies|
  {
    |AllTails(bodies, n)|
  }

  lemma {:induction false} CountGrows(bodies: seq<Body>, m: nat, n: nat)
    requires m <= n <= |bodies|
    ensures Count(bodies, m) <= Count(bodies, n) && AllTails(bodies, n)[..Count(bodies, m)] == AllTails(bodies, m)
    decreases n
  {
    if m < n {
      CountGrows(bodies, m, n - 1);
    }
  }

  lemma TailAt(bodies: seq<Body>, s: nat, k: nat)
    requires s < |bodies| && k < |TailsOf(bodies[s])|
    ensures Count(bodies, s) + k < Count(bodies, s + 1) <= Count(bodies, |bodies|)
    ensures AllTails(bodies, |bodies|)[Count(bodies, s) + k] == TailsOf(bodies[s])[k]
  {
    CountGrows(bodies, s + 1, |bodies|);
    var i := Count(bodies, s) + k;
    assert AllTails(bodies, |bodies|)[i] == AllTails(bodies, |bodies|)[..Count(bodies, s + 1)][i];
  }

  /** Whose early return the `i`th is. */
  lemma {:induction false} OwnerOf(bodies: seq<Body>, n: nat, i: nat) returns (s: nat, k: nat)
    requires n <= |bodies| && i < Count(bodies, n)
    ensures s < n && k < |TailsOf(bodies[s])| && i == Count(bodies, s) + k
    decreases n
  {
    if i < Count(bodies, n - 1) {
      s, k := OwnerOf(bodies, n - 1, i);
    } else {
      s, k := n - 1, i - Count(bodies, n - 1);
    }
  }

  // ---- parts of a level body are level ----

  predicate LevelAll(nets: seq<int>, tails: seq<Body>) {
    forall k | 0 <= k < |tails| :: Level(nets, tails[k])
  }

  predicate BelowAll(rank: seq<nat>, r: nat, tails: seq<Body>) {
    forall k | 0 <= k < |tails| :: CallsBelow(rank, r, tails[k])
  }

  lemma LevelParts(nets: seq<int>, body: Body)
    requires Level(nets, body) && body != []
    ensures LevelWord(nets, body[0]) && Level(nets, body[1..])
  {
    assert forall k | 0 <= k < |body[1..]| :: body[1..][k] == body[k + 1];
  }

  lemma BelowParts(rank: seq<nat>, r: nat, body: Body)
    requires CallsBelow(rank, r, body) && body != []
    ensures WordBelow(rank, r, body[0]) && CallsBelow(rank, r, body[1..])
  {
    assert forall k | 0 <= k < |body[1..]| :: body[1..][k] == body[k + 1];
  }

  lemma {:induction false} TailsAreLevel(nets: seq<int>, body: Body)
    requires Level(nets, body)
    ensures LevelAll(nets, TailsOf(body))
    decreases body
  {
    hide Level; hide LevelWord;
    if body != [] {
      LevelParts(nets, body);
      TailsAreLevel(nets, body[1..]);
      WordTailsAreLevel(nets, body[0]);
    }
  }

  lemma {:induction false} WordTailsAreLevel(nets: seq<int>, word: Word)
    requires LevelWord(nets, word)
    ensures LevelAll(nets, TailsOfWord(word))
    decreases word
  {
    hide Level;
    match word
    case Jump(t) => TargetTailsAreLevel(nets, t);
    case Dip(_, t) => TargetTailsAreLevel(nets, t);
    case Branch(t, f) => TargetTailsAreLevel(nets, t); TargetTailsAreLevel(nets, f);
    case _ =>
  }

  lemma {:induction false} TargetTailsAreLevel(nets: seq<int>, target: Target)
    requires LevelTarget(nets, target)
    ensures LevelAll(nets, TailsOfTarget(target))
    decreases target
  {
    if target.Inline? {
      TailsAreLevel(nets, target.body);
    }
  }

  lemma {:induction false} TailsAreBelow(rank: seq<nat>, r: nat, body: Body)
    requires CallsBelow(rank, r, body)
    ensures BelowAll(rank, r, TailsOf(body))
    decreases body
  {
    hide CallsBelow; hide WordBelow;
    if body != [] {
      BelowParts(rank, r, body);
      TailsAreBelow(rank, r, body[1..]);
      WordTailsAreBelow(rank, r, body[0]);
    }
  }

  lemma {:induction false} WordTailsAreBelow(rank: seq<nat>, r: nat, word: Word)
    requires WordBelow(rank, r, word)
    ensures BelowAll(rank, r, TailsOfWord(word))
    decreases word
  {
    hide CallsBelow;
    match word
    case Jump(t) => TargetTailsAreBelow(rank, r, t);
    case Dip(_, t) => TargetTailsAreBelow(rank, r, t);
    case Branch(t, f) => TargetTailsAreBelow(rank, r, t); TargetTailsAreBelow(rank, r, f);
    case _ =>
  }

  lemma {:induction false} TargetTailsAreBelow(rank: seq<nat>, r: nat, target: Target)
    requires TargetBelow(rank, r, target)
    ensures BelowAll(rank, r, TailsOfTarget(target))
    decreases target
  {
    if target.Inline? {
      TailsAreBelow(rank, r, target.body);
    }
  }

  /** Above every rank, all that matters of a label is that there is such a sentence. */
  lemma {:induction false} LevelIsBelow(nets: seq<int>, rank: seq<nat>, r: nat, body: Body)
    requires Level(nets, body) && |rank| == |nets| && forall s | 0 <= s < |rank| :: rank[s] < r
    ensures CallsBelow(rank, r, body)
    decreases body
  {
    forall k | 0 <= k < |body| ensures WordBelow(rank, r, body[k]) {
      WordIsBelow(nets, rank, r, body[k]);
    }
  }

  lemma {:induction false} WordIsBelow(nets: seq<int>, rank: seq<nat>, r: nat, word: Word)
    requires LevelWord(nets, word) && |rank| == |nets| && forall s | 0 <= s < |rank| :: rank[s] < r
    ensures WordBelow(rank, r, word)
    decreases word
  {
    match word
    case Jump(t) => TargetIsBelow(nets, rank, r, t);
    case Dip(_, t) => TargetIsBelow(nets, rank, r, t);
    case Branch(t, f) => TargetIsBelow(nets, rank, r, t); TargetIsBelow(nets, rank, r, f);
    case _ =>
  }

  lemma {:induction false} TargetIsBelow(nets: seq<int>, rank: seq<nat>, r: nat, target: Target)
    requires LevelTarget(nets, target) && |rank| == |nets| && forall s | 0 <= s < |rank| :: rank[s] < r
    ensures TargetBelow(rank, r, target)
    decreases target
  {
    if target.Inline? {
      LevelIsBelow(nets, rank, r, target.body);
    }
  }

  /** What is ranked below `r` by one order is below `more` by the other. */
  predicate Under(rank: seq<nat>, r: nat, other: seq<nat>, more: nat) {
    |rank| == |other| && forall s | 0 <= s < |rank| && rank[s] < r :: other[s] < more
  }

  lemma {:induction false} BelowMore(rank: seq<nat>, r: nat, other: seq<nat>, more: nat, body: Body)
    requires CallsBelow(rank, r, body) && Under(rank, r, other, more)
    ensures CallsBelow(other, more, body)
    decreases body
  {
    hide Under;
    forall k | 0 <= k < |body| ensures WordBelow(other, more, body[k]) {
      WordBelowMore(rank, r, other, more, body[k]);
    }
  }

  lemma {:induction false} WordBelowMore(rank: seq<nat>, r: nat, other: seq<nat>, more: nat, word: Word)
    requires WordBelow(rank, r, word) && Under(rank, r, other, more)
    ensures WordBelow(other, more, word)
    decreases word
  {
    match word
    case Jump(t) => TargetBelowMore(rank, r, other, more, t);
    case Dip(_, t) => TargetBelowMore(rank, r, other, more, t);
    case Branch(t, f) => TargetBelowMore(rank, r, other, more, t); TargetBelowMore(rank, r, other, more, f);
    case _ =>
  }

  lemma {:induction false} TargetBelowMore(rank: seq<nat>, r: nat, other: seq<nat>, more: nat, target: Target)
    requires TargetBelow(rank, r, target) && Under(rank, r, other, more)
    ensures TargetBelow(other, more, target)
    decreases target
  {
    if target.Inline? {
      BelowMore(rank, r, other, more, target.body);
    }
  }

  // ---- programs written callees first ----

  function Upto(n: nat, first: nat): seq<nat> {
    seq(n, s requires 0 <= s < n => first + s)
  }

  /** Level sentences that call only earlier ones settle, if no `?` is followed by what leaves more than it takes. */
  lemma OrderedSettles(bodies: seq<Body>, nets: seq<int>)
    requires |bodies| == |nets|
    requires forall s | 0 <= s < |bodies| :: Level(nets, bodies[s]) && NetOf(nets, bodies[s]) == nets[s]
    requires forall s | 0 <= s < |bodies| :: CallsBelow(Upto(|bodies|, 0), s, bodies[s])
    requires forall s, k | 0 <= s < |bodies| && 0 <= k < |TailsOf(bodies[s])| :: NetOf(nets, TailsOf(bodies[s])[k]) <= 0
    ensures Settles(bodies, nets, Upto(|bodies|, 0), Upto(|bodies|, 1))
  {
    hide Level; hide CallsBelow; hide NetOf; hide TailsOf;
    var n := |bodies|;
    forall s | 0 <= s < n ensures SettlesAt(bodies[s], s, nets, Upto(n, 0), Upto(n, 1)) {
      BelowMore(Upto(n, 0), s, Upto(n, 1), s + 2, bodies[s]);
      TailsAreBelow(Upto(n, 0), s, bodies[s]);
      forall k | 0 <= k < |TailsOf(bodies[s])| ensures TailSettles(TailsOf(bodies[s])[k], s, nets, Upto(n, 1)) {
        BelowMore(Upto(n, 0), s, Upto(n, 1), s + 1, TailsOf(bodies[s])[k]);
      }
    }
  }

  /** A `?` that has a value to drop. */
  const DROPPING: Body := [Try, Word.Drop(0)]

  /** A `?` and then a call. */
  function Passing(s: nat): Body {
    [Try, Word.Jump(Label(s))]
  }

  /**
   * Callees last, the same sentences do not settle: an early return is measured before the one its rest arm calls
   * has its drops.
   */
  lemma OrderMatters(nets: seq<int>, rank: seq<nat>, top: seq<nat>)
    ensures Settles([DROPPING, Passing(0)], [-1, -1], [0, 1], [1, 2])
    ensures Level([-1, -1], Passing(1)) && NetOf([-1, -1], Passing(1)) == -1 && CallsBelow([1, 0], 1, Passing(1))
    ensures Level([-1, -1], DROPPING) && NetOf([-1, -1], DROPPING) == -1 && CallsBelow([1, 0], 0, DROPPING)
    ensures !Settles([Passing(1), DROPPING], nets, rank, top)
  {
    DroppingParts([-1, -1]);
    PassingParts([-1, -1], 0);
    PassingParts([-1, -1], 1);
    hide NetOf; hide TailsOf; hide Level; hide CallsBelow;
    InOrder();
    if Settles([Passing(1), DROPPING], nets, rank, top) {
      var bodies := [Passing(1), DROPPING];
      assert SettlesAt(bodies[1], 1, nets, rank, top);
      assert SettlesAt(bodies[0], 0, nets, rank, top);
      DropMark(1, nets, rank, top);
      CallMark(0, 1, nets, rank, top);
    }
  }

  lemma InOrder()
    ensures Settles([DROPPING, Passing(0)], [-1, -1], [0, 1], [1, 2])
    ensures CallsBelow([1, 0], 1, Passing(1)) && CallsBelow([1, 0], 0, DROPPING)
  {
    DropSettles(0, [-1, -1], [0, 1], [1, 2]);
    PassSettles(1, 0, [-1, -1], [0, 1], [1, 2]);
    CallIsBelow([1, 0], 1, 1);
    hide SettlesAt;
  }

  lemma CallIsBelow(rank: seq<nat>, r: nat, t: nat)
    requires t < |rank| && rank[t] < r
    ensures CallsBelow(rank, r, Passing(t)) && CallsBelow(rank, r, [Word.Jump(Label(t))])
  {
    assert WordBelow(rank, r, Word.Jump(Label(t)));
    assert forall k | 0 <= k < 2 :: Passing(t)[k] == if k == 0 then Try else Word.Jump(Label(t));
  }

  lemma DropSettles(s: nat, nets: seq<int>, rank: seq<nat>, top: seq<nat>)
    requires s < |nets| == |rank| == |top| && nets[s] == -1 && s < top[s]
    ensures SettlesAt(DROPPING, s, nets, rank, top)
  {
    DroppingParts(nets);
    hide NetOf; hide TailsOf; hide Level;
  }

  lemma PassSettles(s: nat, t: nat, nets: seq<int>, rank: seq<nat>, top: seq<nat>)
    requires s < |nets| == |rank| == |top| && t < |nets| && nets[s] == nets[t] == -1
    requires rank[t] < rank[s] && s < top[s] && top[t] <= s
    ensures SettlesAt(Passing(t), s, nets, rank, top)
  {
    PassingParts(nets, t);
    CallIsBelow(rank, rank[s], t);
    CallIsBelow(top, top[s] + 1, t);
    CallIsBelow(top, s + 1, t);
    hide NetOf; hide TailsOf; hide Level; hide CallsBelow;
  }

  lemma DropMark(s: nat, nets: seq<int>, rank: seq<nat>, top: seq<nat>)
    requires s < |nets| == |rank| == |top| && SettlesAt(DROPPING, s, nets, rank, top)
    ensures s < top[s] && nets[s] == -1
  {
    DroppingParts(nets);
    hide NetOf; hide TailsOf; hide Level; hide CallsBelow;
    assert TailSettles(TailsOf(DROPPING)[0], s, nets, top);
  }

  lemma CallMark(s: nat, t: nat, nets: seq<int>, rank: seq<nat>, top: seq<nat>)
    requires s < |nets| == |rank| == |top| && t < |nets| && nets[t] < 0 && SettlesAt(Passing(t), s, nets, rank, top)
    ensures top[t] <= s
  {
    PassingParts(nets, t);
    hide NetOf; hide TailsOf; hide Level;
    var tail := [Word.Jump(Label(t))];
    assert TailSettles(TailsOf(Passing(t))[0], s, nets, top);
    assert CallsBelow(top, s + 1, tail);
    assert WordBelow(top, s + 1, tail[0]) && tail[0] == Word.Jump(Label(t));
    assert TargetBelow(top, s + 1, Label(t));
  }

  lemma DroppingParts(nets: seq<int>)
    ensures NetOf(nets, DROPPING) == -1 && TailsOf(DROPPING) == [[Word.Drop(0)]] && NetOf(nets, [Word.Drop(0)]) == -1
    ensures Level(nets, DROPPING)
  {
    assert DROPPING[1..] == [Word.Drop(0)];
    assert NetOf(nets, [Word.Drop(0)]) == NetOfWord(nets, Word.Drop(0)) + NetOf(nets, [Word.Drop(0)][1..]);
    assert TailsOf([Word.Drop(0)]) == TailsOfWord(Word.Drop(0)) + TailsOf([Word.Drop(0)][1..]);
  }

  lemma PassingParts(nets: seq<int>, s: nat)
    ensures TailsOf(Passing(s)) == [[Word.Jump(Label(s))]]
    ensures s < |nets| ==> Level(nets, Passing(s))
    ensures s < |nets| ==> NetOf(nets, Passing(s)) == NetOf(nets, [Word.Jump(Label(s))]) == nets[s]
  {
    var tail := [Word.Jump(Label(s))];
    assert Passing(s)[1..] == tail;
    assert NetOf(nets, tail) == NetOfWord(nets, Word.Jump(Label(s))) + NetOf(nets, tail[1..]);
    assert TailsOf(tail) == TailsOfWord(Word.Jump(Label(s))) + TailsOf(tail[1..]);
  }

  // ---- the least marks ----

  /** Calls go down in this order. */
  predicate Descends(bodies: seq<Body>, rank: seq<nat>) {
    |bodies| == |rank| && forall s | 0 <= s < |bodies| :: CallsBelow(rank, rank[s], bodies[s])
  }

  function Max(a: nat, b: nat): nat {
    if a < b then b else a
  }

  /** One past the last sentence reached from this body with an early return that needs drops. */
  function TopOf(bodies: seq<Body>, nets: seq<int>, rank: seq<nat>, r: nat, body: Body): nat
    requires Descends(bodies, rank) && CallsBelow(rank, r, body)
    decreases r, 0, body
  {
    if body == [] then 0
    else
      BelowParts(rank, r, body);
      Max(TopOfWord(bodies, nets, rank, r, body[0]), TopOf(bodies, nets, rank, r, body[1..]))
  }

  function TopOfWord(bodies: seq<Body>, nets: seq<int>, rank: seq<nat>, r: nat, word: Word): nat
    requires Descends(bodies, rank) && WordBelow(rank, r, word)
    decreases r, 0, word
  {
    match word
    case Jump(t) => TopOfTarget(bodies, nets, rank, r, t)
    case Dip(_, t) => TopOfTarget(bodies, nets, rank, r, t)
    case Branch(t, f) => Max(TopOfTarget(bodies, nets, rank, r, t), TopOfTarget(bodies, nets, rank, r, f))
    case Check(Sentence(s)) => TopOfNamed(bodies, nets, rank, s)
    case _ => 0
  }

  function TopOfTarget(bodies: seq<Body>, nets: seq<int>, rank: seq<nat>, r: nat, target: Target): nat
    requires Descends(bodies, rank) && TargetBelow(rank, r, target)
    decreases r, 0, target
  {
    match target
    case Label(s) => TopOfNamed(bodies, nets, rank, s)
    case Inline(body) => TopOf(bodies, nets, rank, r, body)
  }

  function TopOfNamed(bodies: seq<Body>, nets: seq<int>, rank: seq<nat>, s: nat): nat
    requires Descends(bodies, rank) && s < |bodies|
    decreases rank[s], 1
  {
    Max(if AllZero(nets, TailsOf(bodies[s])) then 0 else s + 1, TopOf(bodies, nets, rank, rank[s], bodies[s]))
  }

  ghost predicate TopsOf(bodies: seq<Body>, nets: seq<int>, rank: seq<nat>, top: seq<nat>) {
    && Descends(bodies, rank) && |top| == |bodies|
    && forall s: nat | s < |bodies| :: top[s] == TopOfNamed(bodies, nets, rank, s)
  }

  lemma {:induction false} TopIsAbove(
    bodies: seq<Body>, nets: seq<int>, rank: seq<nat>, top: seq<nat>, lim: nat, r: nat, body: Body)
    requires TopsOf(bodies, nets, rank, top) && CallsBelow(rank, r, body) && TopOf(bodies, nets, rank, r, body) <= lim
    ensures CallsBelow(top, lim + 1, body)
    decreases body
  {
    hide WordBelow; hide TopOfWord; hide TopsOf; hide TopOfNamed; hide Descends;
    if body != [] {
      BelowParts(rank, r, body);
      WordTopIsAbove(bodies, nets, rank, top, lim, r, body[0]);
      TopIsAbove(bodies, nets, rank, top, lim, r, body[1..]);
      forall k | 0 <= k < |body| ensures WordBelow(top, lim + 1, body[k]) {
        if k > 0 {
          assert body[k] == body[1..][k - 1];
        }
      }
    }
  }

  lemma {:induction false} WordTopIsAbove(
    bodies: seq<Body>, nets: seq<int>, rank: seq<nat>, top: seq<nat>, lim: nat, r: nat, word: Word)
    requires TopsOf(bodies, nets, rank, top) && WordBelow(rank, r, word)
    requires TopOfWord(bodies, nets, rank, r, word) <= lim
    ensures WordBelow(top, lim + 1, word)
    decreases word
  {
    hide CallsBelow; hide TopOf; hide Descends; hide TopOfNamed;
    match word
    case Jump(t) => TargetTopIsAbove(bodies, nets, rank, top, lim, r, t);
    case Dip(_, t) => TargetTopIsAbove(bodies, nets, rank, top, lim, r, t);
    case Branch(t, f) =>
      TargetTopIsAbove(bodies, nets, rank, top, lim, r, t);
      TargetTopIsAbove(bodies, nets, rank, top, lim, r, f);
    case Check(Sentence(s)) => LabelTop(bodies, nets, rank, top, s);
    case _ =>
  }

  lemma LabelTop(bodies: seq<Body>, nets: seq<int>, rank: seq<nat>, top: seq<nat>, s: nat)
    requires TopsOf(bodies, nets, rank, top) && s < |rank|
    ensures s < |top| == |bodies| && top[s] == TopOfNamed(bodies, nets, rank, s)
  {
    hide TopOfNamed;
  }

  lemma {:induction false} TargetTopIsAbove(
    bodies: seq<Body>, nets: seq<int>, rank: seq<nat>, top: seq<nat>, lim: nat, r: nat, target: Target)
    requires TopsOf(bodies, nets, rank, top) && TargetBelow(rank, r, target)
    requires TopOfTarget(bodies, nets, rank, r, target) <= lim
    ensures TargetBelow(top, lim + 1, target)
    decreases target
  {
    hide TopOfNamed; hide Descends;
    match target
    case Label(s) => LabelTop(bodies, nets, rank, top, s);
    case Inline(body) => TopIsAbove(bodies, nets, rank, top, lim, r, body);
  }
}
