/** The strategy language, and what a strategy answers about two terms. */
module Tactics {
  import opened Wrappers
  import opened Terms
  import opened Spines
  import opened Libraries
  import opened Lowering
  import opened Goals
  import opened Readings
  import opened Normalize
  import opened Judge

  type Strategy = seq<Step>

  /** An omitted half of a cut is proved by `diagram`; an omitted arm is claimed equal as written. */
  datatype Step =
    | Diagram
    | Exact
    | Via(waypoint: TermIndex, left: Side, right: Side)
    | Peel
    | Symm
    | Inline(only: Option<SentenceIndex>)
    | Descend(thenArm: Side, elseArm: Side)

  /** The strategy for one half of a cut or one arm of a branch, if one was written. */
  datatype Side = Written(steps: seq<Step>) | Omitted

  datatype Goal = Goal(lhs: TermIndex, rhs: TermIndex)

  datatype Outcome = Closed | Stuck | OutOfFuel

  function DefaultStrategy(): Strategy {
    [Diagram]
  }

  function WrittenOr(s: Side, otherwise: Strategy): Strategy {
    match s
    case Written(written) => written
    case Omitted => otherwise
  }

  // ---- what a strategy mentions ----

  function Size(s: Strategy): nat {
    if s == [] then 0 else StepSize(s[0]) + Size(s[1..])
  }

  function StepSize(step: Step): (n: nat)
    ensures n > 0
  {
    match step
    case Via(_, l, r) => 2 + SideSize(l) + SideSize(r)
    case Descend(t, e) => 2 + SideSize(t) + SideSize(e)
    case _ => 1
  }

  function SideSize(s: Side): nat {
    match s
    case Written(written) => Size(written)
    case Omitted => 0
  }

  /** Whether the library's definitions are spent anywhere in it. */
  predicate Spends(s: Strategy) {
    s != [] && (StepSpends(s[0]) || Spends(s[1..]))
  }

  predicate StepSpends(step: Step) {
    match step
    case Inline(_) => true
    case Via(_, l, r) => SideSpends(l) || SideSpends(r)
    case Descend(t, e) => SideSpends(t) || SideSpends(e)
    case _ => false
  }

  predicate SideSpends(s: Side) {
    s.Written? && Spends(s.steps)
  }

  function Stones(s: Strategy): set<TermIndex> {
    if s == [] then {} else StepStones(s[0]) + Stones(s[1..])
  }

  function StepStones(step: Step): set<TermIndex> {
    match step
    case Via(w, l, r) => {w} + SideStones(l) + SideStones(r)
    case Descend(t, e) => SideStones(t) + SideStones(e)
    case _ => {}
  }

  function SideStones(s: Side): set<TermIndex> {
    match s
    case Written(written) => Stones(written)
    case Omitted => {}
  }

  // ---- parts of a strategy ----

  lemma DefaultIsSmall()
    ensures Size(DefaultStrategy()) == 1 && Stones(DefaultStrategy()) == {} && !Spends(DefaultStrategy())
  {
    assert DefaultStrategy()[1..] == [];
  }

  ghost predicate Within(s: Strategy, strategy: Strategy) {
    Size(s) < Size(strategy) && Stones(s) <= Stones(strategy) && (Spends(s) ==> Spends(strategy))
  }

  /** What a strategy's rest mentions, the whole mentions, and the rest is smaller. */
  lemma RestWithin(strategy: Strategy)
    requires strategy != []
    ensures Within(strategy[1..], strategy)
    ensures strategy[0].Inline? ==> Spends(strategy)
  {
  }

  /** One half of a cut or one arm of a branch, as part of the strategy whose first step holds it. */
  lemma SideWithin(side: Side, strategy: Strategy)
    requires strategy != [] && SideSize(side) + 2 <= StepSize(strategy[0])
    requires SideStones(side) <= StepStones(strategy[0]) && (SideSpends(side) ==> StepSpends(strategy[0]))
    ensures side.Written? ==> Within(side.steps, strategy)
    ensures Within(WrittenOr(side, DefaultStrategy()), strategy)
  {
    DefaultIsSmall();
    hide DefaultStrategy;
  }

  lemma SidesWithin(strategy: Strategy)
    requires strategy != [] && strategy[0].Via?
    ensures Within(WrittenOr(strategy[0].left, DefaultStrategy()), strategy)
    ensures Within(WrittenOr(strategy[0].right, DefaultStrategy()), strategy)
  {
    SideWithin(strategy[0].left, strategy);
    SideWithin(strategy[0].right, strategy);
  }

  lemma ArmsWithin(strategy: Strategy)
    requires strategy != [] && strategy[0].Descend?
    ensures ArmWithin(strategy[0].thenArm, strategy) && ArmWithin(strategy[0].elseArm, strategy)
  {
    assert StepStones(strategy[0]) <= Stones(strategy);
  }

  ghost predicate ArmWithin(s: Side, strategy: Strategy) {
    SideSize(s) < Size(strategy) && SideStones(s) <= Stones(strategy) && (SideSpends(s) ==> Spends(strategy))
  }

  lemma WaypointMentioned(strategy: Strategy)
    requires strategy != [] && strategy[0].Via?
    ensures strategy[0].waypoint in Stones(strategy)
  {
    assert StepStones(strategy[0]) <= Stones(strategy);
  }

  // ---- taking the shared ends off ----

  /** What is left of two terms once `p` leading and `q` trailing parts of their spines have gone. */
  ghost function Peeled(l: Tree, r: Tree, p: nat, q: nat): (Tree, Tree)
    requires Peels(Spine(l), Spine(r), p, q)
  {
    var width := Width(Spine(l)[..p], l.Effect().inputs);
    (Rebuilt(Middle(Spine(l), p, q), width), Rebuilt(Middle(Spine(r), p, q), width))
  }

  /** How many leading parts two spines share, counted from the `p`th. */
  ghost function Front<T>(l: seq<T>, r: seq<T>, p: nat): (front: nat)
    requires p <= |l| && p <= |r|
    ensures p <= front <= |l| && front <= |r| && forall k | p <= k < front :: l[k] == r[k]
    ensures front < |l| && front < |r| ==> l[front] != r[front]
    decreases |l| - p
  {
    if p < |l| && p < |r| && l[p] == r[p] then Front(l, r, p + 1) else p
  }

  /** The `k`th from the end. */
  function Last<T>(s: seq<T>, k: nat): T
    requires k < |s|
  {
    s[|s| - 1 - k]
  }

  /** How many trailing parts, short of the first `p`, counted from the `q`th from the end. */
  ghost function Back<T>(l: seq<T>, r: seq<T>, p: nat, q: nat): (back: nat)
    requires p + q <= |l| && p + q <= |r|
    ensures q <= back <= |l| - p && back <= |r| - p && forall k | q <= k < back :: Last(l, k) == Last(r, k)
    ensures p + back < |l| && p + back < |r| ==> Last(l, back) != Last(r, back)
    decreases |l| - q
  {
    if p + q < |l| && p + q < |r| && Last(l, q) == Last(r, q) then Back(l, r, p, q + 1) else q
  }

  /** The leading parts go first, and of what is left then the trailing ones. */
  ghost function Ends<T>(l: seq<T>, r: seq<T>): (ends: (nat, nat))
    ensures Peels(l, r, ends.0, ends.1)
    ensures ends.0 < |l| && ends.0 < |r| ==> l[ends.0] != r[ends.0]
    ensures ends.0 + ends.1 < |l| && ends.0 + ends.1 < |r| ==> Last(l, ends.1) != Last(r, ends.1)
  {
    var p := Front(l, r, 0);
    var q := Back(l, r, p, 0);
    SameTails(l, r, q);
    (p, q)
  }

  lemma SameTails<T>(l: seq<T>, r: seq<T>, q: nat)
    requires q <= |l| && q <= |r| && forall k | 0 <= k < q :: Last(l, k) == Last(r, k)
    ensures l[|l| - q..] == r[|r| - q..]
  {
    var (x, y) := (l[|l| - q..], r[|r| - q..]);
    forall i | 0 <= i < q ensures x[i] == y[i] {
      assert Last(l, q - 1 - i) == Last(r, q - 1 - i);
    }
  }

  // ---- opening calls ----

  /** The term with calls replaced by what they call: all of them, repeatedly, or those to one sentence, once. */
  ghost function Inlined(lib: Library, c: Certificate, t: Tree, only: Option<SentenceIndex>): Tree
    requires Honest(lib, c, t)
    decreases Height(lib, c, t), t
  {
    match t
    case Call(target, _) =>
      if only == None then
        SentenceBeneath(lib, c, target);
        Inlined(lib, c, LowerSentence(lib, c, target), only)
      else if only == Some(target) then LowerSentence(lib, c, target)
      else t
    case Compose(a, b) => Tree.Compose(Inlined(lib, c, a, only), Inlined(lib, c, b, only))
    case Par(a, b) => Tree.Par(Inlined(lib, c, a, only), Inlined(lib, c, b, only))
    case Branch(a, b) => Tree.Branch(Inlined(lib, c, a, only), Inlined(lib, c, b, only))
    case _ => t
  }

  // ---- what a strategy answers ----

  /** The terms that can be read at these places. */
  ghost predicate Reads(terms: seq<Term>, s: Strategy) {
    Ordered(terms) && forall w | w in Stones(s) :: w < |terms|
  }

  /** Two calls that mean the library's sentences, throughout both terms. */
  ghost predicate BothHonest(lib: Library, c: Certificate, l: Tree, r: Tree) {
    Honest(lib, c, l) && Honest(lib, c, r)
  }

  /**
   * What the diagram engine answers: for terms that only wire, push, call and branch, whether nothing tells them
   * apart; of terms with instructions that compare nothing, that they are one if they leave the same wires.
   */
  ghost function DiagramAnswer(l: Tree, r: Tree): Option<Outcome> {
    if Opaque(l) && Opaque(r) then Some(if Alike(l, r) then Closed else Stuck)
    else if NoEqual(l) && NoEqual(r) && Parallel(l, r) then Some(Closed)
    else None
  }

  /**
   * The answer of a strategy to whether two terms are one program, wherever it does not hang on what the diagram
   * engine makes of terms whose instructions compute. Sides that are one term as written close at every level
   * before any step is taken.
   */
  ghost function Answer(lib: Library, c: Certificate, terms: seq<Term>, s: Strategy, l: Tree, r: Tree): Option<Outcome>
    requires Ordered(terms)
    decreases Size(s), 1
  {
    if l == r then Some(Closed)
    else if s == [] then Some(Stuck)
    else
      match s[0]
      case Diagram =>
        DiagramAnswer(l, r)
      case Exact => Some(Stuck)
      case Symm => Answer(lib, c, terms, s[1..], r, l)
      case Via(w, left, right) =>
        if w >= |terms| then None
        else if TreeAt(terms, w).Effect().Net() != l.Effect().Net() then Some(Stuck)
        else
          SidesWithin(s);
          Both(HalfAnswer(lib, c, terms, left, l, TreeAt(terms, w)),
            HalfAnswer(lib, c, terms, right, TreeAt(terms, w), r))
      case Peel =>
        var (p, q) := Ends(Spine(l), Spine(r));
        if p + q == 0 then Some(Stuck)
        else Answer(lib, c, terms, s[1..], Peeled(l, r, p, q).0, Peeled(l, r, p, q).1)
      case Inline(only) =>
        if !HasCalls(l, only) && !HasCalls(r, only) then Some(Stuck)
        else if !BothHonest(lib, c, l, r) then None
        else
          var bare := Aligned(Inlined(lib, c, l, only), Inlined(lib, c, r, only));
          Answer(lib, c, terms, s[1..], bare.0, bare.1)
      case Descend(thenArm, elseArm) =>
        if !l.Branch? || !r.Branch? then Some(Stuck)
        else
          ArmsWithin(s);
          Both(ArmAnswer(lib, c, terms, thenArm, l.ifTrue, r.ifTrue),
            ArmAnswer(lib, c, terms, elseArm, l.ifFalse, r.ifFalse))
  }

  /** Half of a cut, its shallower side padded. */
  ghost function HalfAnswer(lib: Library, c: Certificate, terms: seq<Term>, s: Side, l: Tree, r: Tree): Option<Outcome>
    requires Ordered(terms)
    decreases Size(WrittenOr(s, DefaultStrategy())), 2
  {
    Answer(lib, c, terms, WrittenOr(s, DefaultStrategy()), Aligned(l, r).0, Aligned(l, r).1)
  }

  /** An omitted arm is claimed equal as written. */
  ghost function ArmAnswer(lib: Library, c: Certificate, terms: seq<Term>, s: Side, l: Tree, r: Tree): Option<Outcome>
    requires Ordered(terms)
    decreases SideSize(s), 2
  {
    match s
    case Written(written) => Answer(lib, c, terms, written, l, r)
    case Omitted => Some(if l == r then Closed else Stuck)
  }

  /** The second half counts only once the first has closed. */
  function Both(first: Option<Outcome>, second: Option<Outcome>): Option<Outcome> {
    if first == Some(Closed) then second else first
  }

  // ---- one step at a time ----

  /** To exchange the sides is to ask the rest of the other goal; to do it twice is nothing. */
  lemma SymmExchanges(lib: Library, c: Certificate, terms: seq<Term>, s: Strategy, l: Tree, r: Tree)
    requires Ordered(terms)
    ensures Answer(lib, c, terms, [Symm] + s, l, r) == Answer(lib, c, terms, s, r, l)
    ensures Answer(lib, c, terms, [Symm, Symm] + s, l, r) == Answer(lib, c, terms, s, l, r)
  {
    hide DiagramAnswer; hide Spine; hide HasCalls; hide BothHonest; hide Inlined; hide Aligned; hide Ends;
    var once, twice := [Symm] + s, [Symm, Symm] + s;
    assert once[1..] == s && twice[1..] == once;
    assert l != r ==> Answer(lib, c, terms, twice, l, r) == Answer(lib, c, terms, once, r, l);
    assert l != r ==> Answer(lib, c, terms, once, r, l) == Answer(lib, c, terms, s, l, r);
  }

  lemma CutAnswer(lib: Library, c: Certificate, terms: seq<Term>, s: Strategy, l: Tree, r: Tree)
    requires Ordered(terms) && l != r && s != [] && s[0].Via? && s[0].waypoint < |terms|
    ensures var w := TreeAt(terms, s[0].waypoint);
      Answer(lib, c, terms, s, l, r)
      == if w.Effect().Net() != l.Effect().Net() then Some(Stuck)
         else Both(HalfAnswer(lib, c, terms, s[0].left, l, w), HalfAnswer(lib, c, terms, s[0].right, w, r))
  {
    hide Tree.Effect; hide TreeAt; hide Aligned;
  }

  lemma PeelAnswer(lib: Library, c: Certificate, terms: seq<Term>, s: Strategy, l: Tree, r: Tree)
    requires Ordered(terms) && l != r && s != [] && s[0].Peel?
    ensures var (p, q) := Ends(Spine(l), Spine(r));
      Answer(lib, c, terms, s, l, r)
      == if p + q == 0 then Some(Stuck)
         else Answer(lib, c, terms, s[1..], Peeled(l, r, p, q).0, Peeled(l, r, p, q).1)
  {
    hide Peeled; hide Ends; hide Spine; hide Peels;
  }

  lemma InlineAnswer(lib: Library, c: Certificate, terms: seq<Term>, s: Strategy, l: Tree, r: Tree)
    requires Ordered(terms) && l != r && s != [] && s[0].Inline? && BothHonest(lib, c, l, r)
    ensures var only := s[0].only;
      Answer(lib, c, terms, s, l, r)
      == if !HasCalls(l, only) && !HasCalls(r, only) then Some(Stuck)
         else
           var (x, y) := (Inlined(lib, c, l, only), Inlined(lib, c, r, only));
           Answer(lib, c, terms, s[1..], Aligned(x, y).0, Aligned(x, y).1)
  {
    hide Inlined; hide Aligned; hide HasCalls; hide Honest;
  }

  lemma DescendAnswer(lib: Library, c: Certificate, terms: seq<Term>, s: Strategy, l: Tree, r: Tree)
    requires Ordered(terms) && l != r && s != [] && s[0].Descend?
    ensures Answer(lib, c, terms, s, l, r)
      == if !l.Branch? || !r.Branch? then Some(Stuck)
         else Both(ArmAnswer(lib, c, terms, s[0].thenArm, l.ifTrue, r.ifTrue),
           ArmAnswer(lib, c, terms, s[0].elseArm, l.ifFalse, r.ifFalse))
  {
    hide ArmAnswer;
  }

  /** The answer is the same in an arena that has grown. */
  lemma {:induction false} AnswerStays(
    lib: Library, c: Certificate, terms: seq<Term>, more: seq<Term>, s: Strategy, l: Tree, r: Tree)
    requires Reads(terms, s) && Ordered(more) && |terms| <= |more|
    requires forall i: TermIndex | i < |terms| :: TreeAt(terms, i) == TreeAt(more, i)
    ensures Answer(lib, c, terms, s, l, r) == Answer(lib, c, more, s, l, r)
    decreases Size(s), 1
  {
    hide Tree.Effect; hide DiagramAnswer; hide Aligned; hide Peeled; hide Inlined; hide Honest; hide TreeAt;
    hide HasCalls; hide Ends; hide Peels; hide Stones; hide Size; hide StepSize; hide SideSize; hide StepStones;
    hide Ordered;
    if l != r && s != [] {
      RestWithin(s);
      match s[0]
      case Symm => AnswerStays(lib, c, terms, more, s[1..], r, l);
      case Via(w, left, right) =>
        SidesWithin(s);
        WaypointMentioned(s);
        HalfAnswerStays(lib, c, terms, more, left, l, TreeAt(terms, w));
        HalfAnswerStays(lib, c, terms, more, right, TreeAt(terms, w), r);
      case Peel =>
        var (p, q) := Ends(Spine(l), Spine(r));
        AnswerStays(lib, c, terms, more, s[1..], Peeled(l, r, p, q).0, Peeled(l, r, p, q).1);
      case Inline(only) =>
        if BothHonest(lib, c, l, r) {
          var bare := Aligned(Inlined(lib, c, l, only), Inlined(lib, c, r, only));
          AnswerStays(lib, c, terms, more, s[1..], bare.0, bare.1);
        }
      case Descend(thenArm, elseArm) =>
        if l.Branch? && r.Branch? {
          ArmsWithin(s);
          ArmAnswerStays(lib, c, terms, more, thenArm, l.ifTrue, r.ifTrue);
          ArmAnswerStays(lib, c, terms, more, elseArm, l.ifFalse, r.ifFalse);
        }
      case _ =>
    }
  }

  lemma {:induction false} HalfAnswerStays(
    lib: Library, c: Certificate, terms: seq<Term>, more: seq<Term>, s: Side, l: Tree, r: Tree)
    requires Reads(terms, WrittenOr(s, DefaultStrategy())) && Ordered(more) && |terms| <= |more|
    requires forall i: TermIndex | i < |terms| :: TreeAt(terms, i) == TreeAt(more, i)
    ensures HalfAnswer(lib, c, terms, s, l, r) == HalfAnswer(lib, c, more, s, l, r)
    decreases Size(WrittenOr(s, DefaultStrategy())), 2
  {
    AnswerStays(lib, c, terms, more, WrittenOr(s, DefaultStrategy()), Aligned(l, r).0, Aligned(l, r).1);
  }

  lemma {:induction false} ArmAnswerStays(
    lib: Library, c: Certificate, terms: seq<Term>, more: seq<Term>, s: Side, l: Tree, r: Tree)
    requires (s.Written? ==> Reads(terms, s.steps)) && Ordered(terms) && Ordered(more) && |terms| <= |more|
    requires forall i: TermIndex | i < |terms| :: TreeAt(terms, i) == TreeAt(more, i)
    ensures ArmAnswer(lib, c, terms, s, l, r) == ArmAnswer(lib, c, more, s, l, r)
    decreases SideSize(s), 2
  {
    if s.Written? {
      AnswerStays(lib, c, terms, more, s.steps, l, r);
    }
  }
}
