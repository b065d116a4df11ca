/** Finishing the early returns: each failing arm made to leave the stack as its rest arm does. */
module EarlyReturns {
  import opened Wrappers
  import opened Values
  import opened Prims
  import opened Terms
  import opened Libraries
  import opened Arities
  import opened Drafts
  import opened Balances

  datatype BalanceError = CannotMatch(inSentence: string, excess: nat)

  /** The early returns of a library: failing arms all different, named by nobody but their own branch. */
  ghost predicate Sites(lib: Library, sites: seq<EarlyReturn>) {
    && lib.Closed() && AllProper(lib.sentences, sites)
    && (forall i | 0 <= i < |sites| :: sites[i].rest < |lib.sentences| && sites[i].fail < |lib.sentences|)
    && (forall i, j | 0 <= i < |sites| && 0 <= j < |sites| :: sites[i].rest != sites[j].fail)
    && (forall i, j | 0 <= i < j < |sites| :: sites[i].fail != sites[j].fail)
  }

  ghost predicate Reckons(lib: Library, s: SentenceIndex) {
    exists c: Certificate :: Certifies(lib, c) && s in c.arities
  }

  /** Under some certificate the rest arm has this arity, and the failing arm the same net change. */
  ghost predicate ArmsAgree(lib: Library, x: EarlyReturn, arity: Arity) {
    exists c: Certificate :: Agreed(lib, x, arity, c)
  }

  ghost predicate Agree(lib: Library, x: EarlyReturn) {
    exists arity :: ArmsAgree(lib, x, arity)
  }

  ghost predicate Agreed(lib: Library, x: EarlyReturn, arity: Arity, c: Certificate) {
    && Certifies(lib, c) && x.rest in c.arities && x.fail in c.arities
    && c.arities[x.rest] == arity && c.arities[x.fail].Net() == arity.Net()
  }

  /** Everything `lib` has except `f`, and possibly more after it. */
  ghost predicate SameBut(lib: Library, later: Library, f: SentenceIndex) {
    && |lib.sentences| <= |later.sentences|
    && forall s | 0 <= s < |lib.sentences| && s != f :: later.sentences[s] == lib.sentences[s]
  }

  function Without(c: Certificate, f: SentenceIndex): Certificate {
    Certificate(c.arities - {f}, c.ranks - {f})
  }

  /** A certificate in which nobody calls `f` can do without it, whatever becomes of `f`. */
  lemma SurvivesWithout(lib: Library, later: Library, c: Certificate, f: SentenceIndex)
    requires Certifies(lib, c) && SameBut(lib, later, f)
    requires forall s | s in c.arities :: NeverCalls(lib.sentences[s], f)
    ensures Certifies(later, Without(c, f))
  {
    var d := Without(c, f);
    forall s | s in d.arities ensures s < |later.sentences| && Justified(later, d, s) {
      assert Justified(lib, c, s) && NeverCalls(lib.sentences[s], f);
      var insts := lib.sentences[s];
      forall ip | 0 <= ip < |insts| ensures Lower(d, s, insts[ip]) {
        assert Lower(c, s, insts[ip]);
      }
      Widening(insts, d.arities, c.arities);
    }
  }

  ghost predicate NeverCalls(insts: Libraries.Sentence, f: SentenceIndex) {
    forall ip | 0 <= ip < |insts| :: f !in insts[ip].Callees()
  }

  /** While the arms of a `?` disagree, no certificate covers anything that calls the failing one. */
  lemma NobodyCallsFail(lib: Library, sites: seq<EarlyReturn>, i: nat, c: Certificate, d: Certificate)
    requires Sites(lib, sites) && i < |sites| && Certifies(lib, c) && Certifies(lib, d)
    requires sites[i].rest in d.arities
    requires sites[i].fail in c.arities ==> c.arities[sites[i].fail].Net() != d.arities[sites[i].rest].Net()
    ensures forall s | s in c.arities :: NeverCalls(lib.sentences[s], sites[i].fail)
  {
    var x := sites[i];
    forall s, ip | s in c.arities && 0 <= ip < |lib.sentences[s]| ensures x.fail !in lib.sentences[s][ip].Callees() {
      var inst := lib.sentences[s][ip];
      if x.fail in inst.Callees() {
        assert Justified(lib, c, s) && Lower(c, s, inst);
        assert ProperCode(lib.sentences[s], |lib.sentences|, sites) && Proper(inst, |lib.sentences|, sites);
        assert x in sites && inst == Instruction.Branch(x.rest, x.fail);
        CertificatesAgree(lib, c, d, x.rest);
        forall k | 0 <= k < |lib.sentences[s]| ensures lib.sentences[s][k].Callees() <= c.arities.Keys {
          assert Lower(c, s, lib.sentences[s][k]);
        }
        EveryPart(lib.sentences[s], |lib.sentences[s]|, ip, c.arities);
        assert false;
      }
    }
  }

  /** The failing arm as it was filed changes nothing about the height of the stack. */
  lemma UnbalancedNet(lib: Library, c: Certificate, err: Value, f: SentenceIndex)
    requires Certifies(lib, c) && f in c.arities && lib.sentences[f] == FailStart(err)
    ensures c.arities[f].Net() == 0
  {
    assert Justified(lib, c, f);
    FailEffect(lib.sentences[f], err, 0, 0, c.arities);
  }

  lemma {:induction false} FailEffect(
    insts: Libraries.Sentence, err: Value, drop: SentenceIndex, k: nat, arities: map<SentenceIndex, Arity>)
    requires |insts| >= 2 + k && insts[..2 + k] == FailCode(err, drop, k)
    requires k > 0 ==> drop in arities && arities[drop] == Arity(1, 0)
    ensures forall ip | 0 <= ip < 2 + k :: insts[ip].Callees() <= arities.Keys
    ensures PrefixEffect(insts, 2 + k, arities) == Some(Arity(1 + k, 1))
    decreases k
  {
    assert insts[0] == insts[..2 + k][0] && insts[1] == insts[..2 + k][1];
    if k == 0 {
      assert PrefixEffect(insts, 0, arities) == Some(Arity(0, 0));
      assert PrefixEffect(insts, 1, arities) == Some(Arity(0, 1));
    } else {
      assert insts[2 + k - 1] == insts[..2 + k][2 + k - 1] == Instruction.Dip(drop);
      assert insts[..2 + (k - 1)] == insts[..2 + k][..2 + (k - 1)] == FailCode(err, drop, k - 1);
      FailEffect(insts, err, drop, k - 1, arities);
    }
  }

  lemma {:induction false} RankAbove(ranks: map<SentenceIndex, nat>) returns (rank: nat)
    ensures forall t | t in ranks :: ranks[t] < rank
    decreases |ranks|
  {
    if ranks == map[] {
      return 0;
    }
    var t :| t in ranks;
    rank := RankAbove(ranks - {t});
    rank := if rank <= ranks[t] then ranks[t] + 1 else rank;
    forall s | s in ranks ensures ranks[s] < rank {
      if s != t {
        assert s in ranks - {t};
      }
    }
  }

  /** A block whose callees are covered, covered as well. */
  lemma CoverOne(lib: Library, c: Certificate, s: SentenceIndex, arity: Arity) returns (d: Certificate)
    requires Certifies(lib, c) && s < |lib.sentences| && s !in c.arities
    requires forall ip | 0 <= ip < |lib.sentences[s]| :: lib.sentences[s][ip].Callees() <= c.arities.Keys
    requires PrefixEffect(lib.sentences[s], |lib.sentences[s]|, c.arities) == Some(arity)
    ensures Certifies(lib, d) && d.arities == c.arities[s := arity]
  {
    var rank := RankAbove(c.ranks);
    Extended(lib, c, s, arity, rank);
    d := Certificate(c.arities[s := arity], c.ranks[s := rank]);
  }

  lemma DropEffect(insts: Libraries.Sentence, arities: map<SentenceIndex, Arity>)
    requires insts == [Instruction.Drop]
    ensures forall ip | 0 <= ip < |insts| :: insts[ip].Callees() <= arities.Keys
    ensures PrefixEffect(insts, |insts|, arities) == Some(Arity(1, 0))
  {
    assert PrefixEffect(insts, 0, arities) == Some(Arity(0, 0));
  }

  lemma DropCovered(lib: Library, c: Certificate, drop: SentenceIndex)
    requires Certifies(lib, c) && drop < |lib.sentences| && lib.sentences[drop] == [Instruction.Drop]
    requires drop in c.arities
    ensures c.arities[drop] == Arity(1, 0)
  {
    assert Justified(lib, c, drop);
    DropEffect(lib.sentences[drop], c.arities);
  }

  /** The failing arm, finished, can be covered on top of anything: it changes the height by its drops. */
  lemma CoverFail(lib: Library, c: Certificate, err: Value, f: SentenceIndex, drop: SentenceIndex, k: nat)
    returns (d: Certificate)
    requires Certifies(lib, c) && f !in c.arities && f != drop && Salvages(lib, err, f, drop, k)
    ensures Certifies(lib, d) && c.arities.Keys <= d.arities.Keys
    ensures (forall t | t in c.arities :: d.arities[t] == c.arities[t])
    ensures f in d.arities && d.arities[f] == Arity(1 + k, 1)
  {
    hide Certifies; hide PrefixEffect; hide InstEffect;
    d := c;
    if k > 0 {
      if drop in c.arities {
        DropCovered(lib, c, drop);
      } else {
        DropEffect(lib.sentences[drop], c.arities);
        d := CoverOne(lib, c, drop, Arity(1, 0));
      }
    }
    assert lib.sentences[f][..2 + k] == FailCode(err, drop, k);
    FailEffect(lib.sentences[f], err, drop, k, d.arities);
    d := CoverOne(lib, d, f, Arity(1 + k, 1));
  }

  // ---- one early return at a time ----

  /** Early returns from `i` on are as they were filed, and those before have been finished. */
  ghost predicate Stage(lib: Library, err: Value, sites: seq<EarlyReturn>, i: nat) {
    && Sites(lib, sites)
    && (forall j | 0 <= j < |sites| :: Salvaging(lib, err, sites[j].fail))
    && (forall j | i <= j < |sites| :: lib.sentences[sites[j].fail] == FailStart(err))
  }

  /** One early return finished with `k` drops; everything else as it was. */
  ghost predicate Finished(lib: Library, later: Library, err: Value, x: EarlyReturn, drop: SentenceIndex, k: nat) {
    && SameBut(lib, later, x.fail) && x.fail != drop && Salvages(later, err, x.fail, drop, k)
    && (k == 0 ==> later == lib)
  }

  lemma StageParts(lib: Library, err: Value, sites: seq<EarlyReturn>, i: nat)
    requires Stage(lib, err, sites, i) && i < |sites|
    ensures Sites(lib, sites) && sites[i].rest < |lib.sentences| && sites[i].fail < |lib.sentences|
    ensures lib.sentences[sites[i].fail] == FailStart(err)
    ensures forall j | 0 <= j < |sites| && j != i :: sites[j].fail != sites[i].fail
    ensures forall j | 0 <= j < |sites| :: sites[j].rest != sites[i].fail
  {
  }

  /**
   * Whatever is certified while the arms of a `?` disagree is certified without the failing one, whatever that
   * becomes.
   */
  lemma Surviving(
    lib: Library, later: Library, err: Value, sites: seq<EarlyReturn>, i: nat, c: Certificate, d: Certificate)
    requires Stage(lib, err, sites, i) && i < |sites| && SameBut(lib, later, sites[i].fail)
    requires Certifies(lib, c) && sites[i].rest in c.arities && c.arities[sites[i].rest].Net() != 0
    requires Certifies(lib, d)
    ensures Certifies(later, Without(d, sites[i].fail))
  {
    StageParts(lib, err, sites, i);
    hide Stage; hide Sites; hide Certifies; hide SameBut; hide NeverCalls;
    var f := sites[i].fail;
    if f in d.arities {
      UnbalancedNet(lib, d, err, f);
    }
    NobodyCallsFail(lib, sites, i, d, c);
    SurvivesWithout(lib, later, d, f);
  }

  lemma AgreedWithout(lib: Library, later: Library, x: EarlyReturn, arity: Arity, d: Certificate, f: SentenceIndex)
    requires Agreed(lib, x, arity, d) && Certifies(later, Without(d, f)) && x.rest != f && x.fail != f
    ensures Agreed(later, x, arity, Without(d, f)) && ArmsAgree(later, x, arity)
  {
    hide Certifies;
  }

  /** Finishing one early return unsettles none that agreed already. */
  lemma OthersStillAgree(
    lib: Library, later: Library, err: Value, sites: seq<EarlyReturn>, i: nat, j: nat, arity: Arity,
    c: Certificate, drop: SentenceIndex, k: nat)
    requires Stage(lib, err, sites, i) && i < |sites| && j < |sites| && j != i
    requires Finished(lib, later, err, sites[i], drop, k)
    requires Certifies(lib, c) && sites[i].rest in c.arities && c.arities[sites[i].rest].Net() + k == 0
    requires ArmsAgree(lib, sites[j], arity)
    ensures ArmsAgree(later, sites[j], arity)
  {
    StageParts(lib, err, sites, i);
    hide Stage; hide Certifies; hide SameBut; hide Sites;
    if k > 0 {
      var d: Certificate :| Agreed(lib, sites[j], arity, d);
      assert Certifies(lib, d);
      hide Agreed;
      Surviving(lib, later, err, sites, i, c, d);
      AgreedWithout(lib, later, sites[j], arity, d, sites[i].fail);
    }
  }

  /** Finishing an early return with the drops its rest arm asks for makes its own arms agree. */
  lemma NowAgrees(
    lib: Library, later: Library, err: Value, sites: seq<EarlyReturn>, i: nat,
    c: Certificate, drop: SentenceIndex, k: nat)
    requires Stage(lib, err, sites, i) && i < |sites| && Finished(lib, later, err, sites[i], drop, k)
    requires Certifies(lib, c) && sites[i].rest in c.arities && c.arities[sites[i].rest].Net() + k == 0
    ensures ArmsAgree(later, sites[i], c.arities[sites[i].rest])
  {
    var x := sites[i];
    StageParts(lib, err, sites, i);
    FinishedParts(lib, later, err, x, drop, k);
    if k > 0 {
      hide *;
      Surviving(lib, later, err, sites, i, c, c);
      NowCovered(later, err, x, c, Without(c, x.fail), drop, k);
    } else if x.fail in c.arities {
      hide Stage; hide Certifies; hide Salvages; hide Sites;
      UnbalancedNet(lib, c, err, x.fail);
      assert Agreed(later, x, c.arities[x.rest], c);
    } else {
      hide *;
      NowCovered(later, err, x, c, c, drop, k);
    }
  }

  lemma FinishedParts(lib: Library, later: Library, err: Value, x: EarlyReturn, drop: SentenceIndex, k: nat)
    requires Finished(lib, later, err, x, drop, k)
    ensures SameBut(lib, later, x.fail) && Salvages(later, err, x.fail, drop, k) && x.fail != drop
    ensures (k == 0 ==> later == lib)
    ensures forall c: Certificate :: x.fail !in Without(c, x.fail).arities
    ensures forall c: Certificate | x.rest in c.arities && x.rest != x.fail ::
      x.rest in Without(c, x.fail).arities && Without(c, x.fail).arities[x.rest] == c.arities[x.rest]
  {
  }

  /** The finished arm covered on top of a certificate that knows the rest arm. */
  lemma NowCovered(
    later: Library, err: Value, x: EarlyReturn, c: Certificate, d: Certificate, drop: SentenceIndex, k: nat)
    requires Certifies(later, d) && x.fail !in d.arities && x.fail != drop && Salvages(later, err, x.fail, drop, k)
    requires x.rest in c.arities && x.rest in d.arities && d.arities[x.rest] == c.arities[x.rest]
    requires c.arities[x.rest].Net() + k == 0
    ensures ArmsAgree(later, x, c.arities[x.rest])
  {
    hide Certifies; hide Salvages;
    var e := CoverFail(later, d, err, x.fail, drop, k);
    assert Agreed(later, x, c.arities[x.rest], e);
  }

  // ---- the pass itself ----

  /** What the pass leaves alone: every sentence but the failing arms, and what was said about each. */
  ghost predicate Kept(lib: Library, later: Library, sites: seq<EarlyReturn>) {
    && |lib.sentences| <= |later.sentences| && lib.names <= later.names && lib.annotations <= later.annotations
    && forall s | 0 <= s < |lib.sentences| && (forall i | 0 <= i < |sites| :: s != sites[i].fail) ::
      later.sentences[s] == lib.sentences[s]
  }

  /** The shared block holding one `drop`, once there is one. */
  ghost predicate DropReady(lib: Library, sites: seq<EarlyReturn>, deepDrop: Option<SentenceIndex>) {
    deepDrop.Some? ==>
      && deepDrop.value < |lib.sentences| && lib.sentences[deepDrop.value] == [Instruction.Drop]
      && forall i | 0 <= i < |sites| :: sites[i].fail != deepDrop.value
  }

  function WithBlock(lib: Library, body: Libraries.Sentence): Library {
    Library(lib.sentences + [body], lib.names + [INLINE_BLOCK], lib.annotations + [[]])
  }

  function WithDrops(lib: Library, f: SentenceIndex, drop: SentenceIndex, k: nat): Library
    requires f < |lib.sentences|
  {
    lib.(sentences := lib.sentences[f := lib.sentences[f] + seq(k, _ => Instruction.Dip(drop))])
  }

  lemma CertifiesMore(lib: Library, body: Libraries.Sentence, c: Certificate)
    requires Certifies(lib, c)
    ensures Certifies(WithBlock(lib, body), c)
  {
    forall s | s in c.arities ensures Justified(WithBlock(lib, body), c, s) {
      assert Justified(lib, c, s);
    }
  }

  lemma AgreesMore(lib: Library, body: Libraries.Sentence, x: EarlyReturn, arity: Arity)
    requires ArmsAgree(lib, x, arity)
    ensures ArmsAgree(WithBlock(lib, body), x, arity)
  {
    var c: Certificate :| Agreed(lib, x, arity, c);
    CertifiesMore(lib, body, c);
    assert Agreed(WithBlock(lib, body), x, arity, c);
  }

  /** One more block, which calls nothing: every early return is where it was. */
  lemma StageMore(lib: Library, err: Value, sites: seq<EarlyReturn>, i: nat)
    requires Stage(lib, err, sites, i)
    ensures Stage(WithBlock(lib, [Instruction.Drop]), err, sites, i)
    ensures DropReady(WithBlock(lib, [Instruction.Drop]), sites, Some(|lib.sentences|))
    ensures Kept(lib, WithBlock(lib, [Instruction.Drop]), sites)
  {
    var later := WithBlock(lib, [Instruction.Drop]);
    forall s | 0 <= s < |later.sentences| ensures ProperCode(later.sentences[s], |later.sentences|, sites) {
      if s < |lib.sentences| {
        assert ProperCode(lib.sentences[s], |lib.sentences|, sites);
        forall ip | 0 <= ip < |lib.sentences[s]| ensures Proper(lib.sentences[s][ip], |later.sentences|, sites) {
          assert Proper(lib.sentences[s][ip], |lib.sentences|, sites);
        }
      }
    }
    ProperIsClosed(later, sites);
    forall j | 0 <= j < |sites| ensures Salvaging(later, err, sites[j].fail) {
      assert Salvaging(lib, err, sites[j].fail);
      var drop, k :| Salvages(lib, err, sites[j].fail, drop, k);
      assert Salvages(later, err, sites[j].fail, drop, k);
    }
  }

  lemma Dropped(lib: Library, err: Value, sites: seq<EarlyReturn>, i: nat, drop: SentenceIndex, k: nat)
    requires Stage(lib, err, sites, i) && i < |sites| && (k > 0 ==> DropReady(lib, sites, Some(drop)))
    requires drop != sites[i].fail
    ensures var later := WithDrops(lib, sites[i].fail, drop, k);
      && Finished(lib, later, err, sites[i], drop, k) && Kept(lib, later, sites)
      && Stage(later, err, sites, i + 1)
  {
    var f := sites[i].fail;
    var later := WithDrops(lib, f, drop, k);
    var dips := seq(k, _ => Instruction.Dip(drop));
    assert FailStart(err) + dips == FailCode(err, drop, k);
    if k == 0 {
      assert lib.sentences[f] + dips == lib.sentences[f];
      assert later == lib;
    }
    assert Salvages(later, err, f, drop, k);
    DroppedIsProper(lib, sites, i, drop, k);
    forall j | 0 <= j < |sites| ensures Salvaging(later, err, sites[j].fail) {
      assert Salvaging(lib, err, sites[j].fail);
      if j == i {
        assert Salvages(later, err, sites[j].fail, drop, k);
      } else {
        var d, n :| Salvages(lib, err, sites[j].fail, d, n);
        DropIsNoFail(lib, err, f, d);
        assert Salvages(later, err, sites[j].fail, d, n);
      }
    }
  }

  lemma DropIsNoFail(lib: Library, err: Value, f: SentenceIndex, drop: SentenceIndex)
    requires f < |lib.sentences| && lib.sentences[f] == FailStart(err)
    ensures drop < |lib.sentences| && lib.sentences[drop] == [Instruction.Drop] ==> drop != f
  {
    if drop == f {
      assert |lib.sentences[f]| == 2;
    }
  }

  lemma DroppedIsProper(lib: Library, sites: seq<EarlyReturn>, i: nat, drop: SentenceIndex, k: nat)
    requires Sites(lib, sites) && i < |sites| && (k > 0 ==> DropReady(lib, sites, Some(drop)))
    ensures Sites(WithDrops(lib, sites[i].fail, drop, k), sites)
  {
    var f := sites[i].fail;
    var later := WithDrops(lib, f, drop, k);
    forall s | 0 <= s < |later.sentences| ensures ProperCode(later.sentences[s], |later.sentences|, sites) {
      assert ProperCode(lib.sentences[s], |lib.sentences|, sites);
      forall ip | 0 <= ip < |later.sentences[s]| ensures Proper(later.sentences[s][ip], |later.sentences|, sites) {
        if ip < |lib.sentences[s]| {
          assert Proper(lib.sentences[s][ip], |lib.sentences|, sites);
        } else {
          assert later.sentences[s][ip] == Instruction.Dip(drop);
        }
      }
    }
    ProperIsClosed(later, sites);
  }

  lemma ProperIsClosed(lib: Library, sites: seq<EarlyReturn>)
    requires AllProper(lib.sentences, sites) && |lib.names| == |lib.sentences| == |lib.annotations|
    ensures lib.Closed()
  {
    forall s, ip | 0 <= s < |lib.sentences| && 0 <= ip < |lib.sentences[s]|
      ensures forall t | t in lib.sentences[s][ip].Callees() :: t < |lib.sentences|
    {
      assert ProperCode(lib.sentences[s], |lib.sentences|, sites);
      assert Proper(lib.sentences[s][ip], |lib.sentences|, sites);
    }
  }

  lemma KeptOn(a: Library, b: Library, c: Library, sites: seq<EarlyReturn>)
    requires Kept(a, b, sites) && Kept(b, c, sites)
    ensures Kept(a, c, sites)
  {
  }

  lemma StageMoves(lib: Library, err: Value, sites: seq<EarlyReturn>, i: nat)
    requires Stage(lib, err, sites, i)
    ensures Stage(lib, err, sites, i + 1)
  {
  }

  /** The arms measured so far still agree, with the arity each rest arm was measured at. */
  ghost predicate AllAgree(lib: Library, sites: seq<EarlyReturn>, measured: seq<Option<Arity>>)
    requires |measured| <= |sites|
  {
    forall j | 0 <= j < |measured| && measured[j].Some? :: ArmsAgree(lib, sites[j], measured[j].value)
  }

  /**
   * `later` is `before` with the failing arm given `k` calls of a block that drops, where the rest arm takes
   * `k` values more than it leaves. The block is added at its first use.
   */
  ghost predicate Balanced(
    before: Library, later: Library, x: EarlyReturn, c: Certificate, drop: SentenceIndex, k: nat) {
    && Certifies(before, c) && x.rest in c.arities && c.arities[x.rest].Net() + k == 0
    && x.fail < |before.sentences|
    && (later == WithDrops(before, x.fail, drop, k)
        || (k > 0 && later == WithDrops(WithBlock(before, [Instruction.Drop]), x.fail, drop, k)))
    && (k > 0 ==> drop < |later.sentences| && later.sentences[drop] == [Instruction.Drop])
  }

  /** One early return's turn: its failing arm is balanced if its rest arm has an arity, and left alone if not. */
  ghost predicate Turn(before: Library, later: Library, x: EarlyReturn) {
    if Reckons(before, x.rest) then
      exists c: Certificate, drop, k :: Balanced(before, later, x, c, drop, k)
    else
      later == before
  }

  /** The failing arm of one early return given its drops, from a block all of them share. */
  method FinishOne(
    lib: Library, sites: seq<EarlyReturn>, i: nat, deepDrop: Option<SentenceIndex>, drops: nat,
    ghost err: Value, ghost c: Certificate, ghost measured: seq<Option<Arity>>)
    returns (later: Library, shared: Option<SentenceIndex>)
    requires Stage(lib, err, sites, i) && i < |sites| && DropReady(lib, sites, deepDrop)
    requires Certifies(lib, c) && sites[i].rest in c.arities && c.arities[sites[i].rest].Net() + drops == 0
    requires |measured| == i && AllAgree(lib, sites, measured)
    ensures Stage(later, err, sites, i + 1) && DropReady(later, sites, shared) && Kept(lib, later, sites)
    ensures AllAgree(later, sites, measured + [Some(c.arities[sites[i].rest])])
    ensures exists drop :: Balanced(lib, later, sites[i], c, drop, drops)
  {
    hide Stage; hide Certifies; hide ArmsAgree; hide Kept; hide Finished; hide DropReady; hide Balanced;
    later, shared := lib, deepDrop;
    KeptItself(lib, sites);
    if drops > 0 && deepDrop.None? {
      StageMore(lib, err, sites, i);
      CertifiesMore(lib, [Instruction.Drop], c);
      forall j | 0 <= j < i && measured[j].Some?
        ensures ArmsAgree(WithBlock(lib, [Instruction.Drop]), sites[j], measured[j].value)
      {
        AgreesMore(lib, [Instruction.Drop], sites[j], measured[j].value);
      }
      shared := Some(|lib.sentences|);
      later := WithBlock(lib, [Instruction.Drop]);
    }
    ghost var before := later;
    var drop := if shared.Some? then shared.value else sites[i].fail + 1;
    StageParts(before, err, sites, i);
    SharedIsNoFail(before, sites, i, shared);
    Dropped(before, err, sites, i, drop, drops);
    var dips := 0;
    var fail := sites[i].fail;
    assert before.sentences[fail] + seq(0, _ => Instruction.Dip(drop)) == before.sentences[fail];
    assert later == WithDrops(before, fail, drop, 0);
    while dips < drops
      invariant 0 <= dips <= drops && later == WithDrops(before, fail, drop, dips)
    {
      assert before.sentences[fail] + seq(dips + 1, _ => Instruction.Dip(drop))
          == later.sentences[fail] + [Instruction.Dip(drop)];
      later := later.(sentences := later.sentences[fail := later.sentences[fail] + [Instruction.Dip(drop)]]);
      dips := dips + 1;
    }
    NowAgrees(before, later, err, sites, i, c, drop, drops);
    forall j | 0 <= j < i && measured[j].Some? ensures ArmsAgree(later, sites[j], measured[j].value) {
      OthersStillAgree(before, later, err, sites, i, j, measured[j].value, c, drop, drops);
    }
    KeptOn(lib, before, later, sites);
    ReadyStays(before, later, err, sites, i, drop, drops, shared);
    StageParts(lib, err, sites, i);
    NowBalanced(lib, before, later, sites, i, c, drop, drops, shared);
  }

  lemma NowBalanced(
    lib: Library, before: Library, later: Library, sites: seq<EarlyReturn>, i: nat, c: Certificate,
    drop: SentenceIndex, k: nat, shared: Option<SentenceIndex>)
    requires i < |sites| && sites[i].fail < |lib.sentences|
    requires before == lib || (k > 0 && before == WithBlock(lib, [Instruction.Drop]))
    requires Certifies(lib, c) && sites[i].rest in c.arities && c.arities[sites[i].rest].Net() + k == 0
    requires later == WithDrops(before, sites[i].fail, drop, k) && DropReady(later, sites, shared)
    requires k > 0 ==> shared == Some(drop)
    ensures Balanced(lib, later, sites[i], c, drop, k)
  {
    hide Certifies;
  }

  lemma KeptItself(lib: Library, sites: seq<EarlyReturn>)
    ensures Kept(lib, lib, sites)
  {
  }

  lemma SharedIsNoFail(lib: Library, sites: seq<EarlyReturn>, i: nat, shared: Option<SentenceIndex>)
    requires DropReady(lib, sites, shared) && i < |sites|
    ensures shared.Some? ==> shared.value != sites[i].fail
  {
  }

  lemma ReadyStays(
    lib: Library, later: Library, err: Value, sites: seq<EarlyReturn>, i: nat, drop: SentenceIndex, k: nat,
    shared: Option<SentenceIndex>)
    requires DropReady(lib, sites, shared) && i < |sites| && Finished(lib, later, err, sites[i], drop, k)
    ensures DropReady(later, sites, shared)
  {
  }

  /**
   * Finishes the early returns in the order given. In the finished library the two arms agree for each whose
   * rest arm had an arity at its turn; the others stay as they were. The only error is an arm with a surplus.
   * `stages` are the libraries met at each turn.
   */
  method BalanceEarlyReturns(lib: Library, sites: seq<EarlyReturn>, ghost err: Value)
    returns (r: Result<Library, BalanceError>, ghost stages: seq<Library>)
    requires Stage(lib, err, sites, 0)
    ensures InStages(lib, err, sites, stages)
    ensures r.Ok? ==> |stages| == |sites| + 1 && stages[|sites|] == r.value
    ensures r.Ok? ==> forall i | 0 <= i < |sites| && Reckons(stages[i], sites[i].rest) :: Agree(r.value, sites[i])
    ensures r.Err? ==> |stages| <= |sites|
    ensures r.Err? ==> LeavesMore(stages[|stages| - 1], sites[|stages| - 1], r.error)
  {
    hide Stage; hide Certifies; hide ArmsAgree; hide Kept; hide DropReady; hide Balanced;
    var library, deepDrop: Option<SentenceIndex> := lib, None;
    ghost var measured: seq<Option<Arity>> := [];
    stages := [lib];
    KeptItself(lib, sites);
    NothingShared(lib, sites);
    for i := 0 to |sites|
      invariant Stage(library, err, sites, i) && DropReady(library, sites, deepDrop) && Kept(lib, library, sites)
      invariant |measured| == i && AllAgree(library, sites, measured)
      invariant |stages| == i + 1 && stages[i] == library && InStages(lib, err, sites, stages)
      invariant forall j | 0 <= j < i :: Reckons(stages[j], sites[j].rest) ==> measured[j].Some?
    {
      StageParts(library, err, sites, i);
      ghost var before := library;
      ghost var claim := ClaimFor(library, sites[i].rest);
      var arity := SentenceArity(library, sites[i].rest, claim);
      if arity.None? {
        StageMoves(library, err, sites, i);
        measured := measured + [None];
        assert Turn(before, library, sites[i]);
      } else {
        ghost var c: Certificate :|
          Certifies(library, c) && sites[i].rest in c.arities && c.arities[sites[i].rest] == arity.value;
        var drops := -arity.value.Net();
        if drops < 0 {
          assert LeavesMore(stages[i], sites[i], CannotMatch(sites[i].inSentence, -drops));
          return Err(CannotMatch(sites[i].inSentence, -drops)), stages;
        }
        library, deepDrop := FinishOne(library, sites, i, deepDrop, drops, err, c, measured);
        KeptOn(lib, before, library, sites);
        measured := measured + [Some(arity.value)];
        assert Reckons(before, sites[i].rest);
        ghost var drop :| Balanced(before, library, sites[i], c, drop, drops);
        assert Turn(before, library, sites[i]);
      }
      NextStage(lib, err, sites, stages, library, measured);
      stages := stages + [library];
    }
    r := Ok(library);
  }

  /**
   * Early returns finished one at a time: each stage is the library as it stands when its turn comes, and in
   * it the arms agree of each earlier one whose rest arm had an arity.
   */
  ghost predicate InStages(lib: Library, err: Value, sites: seq<EarlyReturn>, stages: seq<Library>) {
    && 0 < |stages| <= |sites| + 1 && stages[0] == lib
    && (forall i | 0 <= i < |stages| :: Stage(stages[i], err, sites, i) && Kept(lib, stages[i], sites))
    && (forall i | 0 <= i < |stages| - 1 :: Turn(stages[i], stages[i + 1], sites[i]))
    && forall i, j | 0 <= j < i < |stages| && Reckons(stages[j], sites[j].rest) :: Agree(stages[i], sites[j])
  }

  /** The stage after a turn joins the stages before it. */
  lemma NextStage(
    lib: Library, err: Value, sites: seq<EarlyReturn>, stages: seq<Library>, next: Library,
    measured: seq<Option<Arity>>)
    requires InStages(lib, err, sites, stages) && |stages| <= |sites|
    requires Stage(next, err, sites, |stages|) && Kept(lib, next, sites)
    requires Turn(stages[|stages| - 1], next, sites[|stages| - 1])
    requires |measured| == |stages| && AllAgree(next, sites, measured)
    requires forall j | 0 <= j < |stages| :: Reckons(stages[j], sites[j].rest) ==> measured[j].Some?
    ensures InStages(lib, err, sites, stages + [next])
  {
    hide Stage; hide Kept; hide Turn; hide Reckons; hide ArmsAgree;
    var more := stages + [next];
    forall i, j | 0 <= j < i < |more| && Reckons(more[j], sites[j].rest) ensures Agree(more[i], sites[j]) {
      if i == |stages| {
        assert ArmsAgree(next, sites[j], measured[j].value);
      } else {
        assert Agree(stages[i], sites[j]);
      }
    }
    forall i | 0 <= i < |more| - 1 ensures Turn(more[i], more[i + 1], sites[i]) {
      if i + 1 < |stages| {
        assert Turn(stages[i], stages[i + 1], sites[i]);
      }
    }
  }

  /** The rest arm has an arity, with `excess` more outputs than inputs, which no failing arm could match. */
  ghost predicate LeavesMore(lib: Library, x: EarlyReturn, error: BalanceError) {
    exists c: Certificate ::
      && Certifies(lib, c) && x.rest in c.arities && c.arities[x.rest].Net() == error.excess > 0
      && error.inSentence == x.inSentence
  }

  lemma NothingShared(lib: Library, sites: seq<EarlyReturn>)
    ensures DropReady(lib, sites, None)
  {
  }

  lemma ClaimFor(lib: Library, s: SentenceIndex) returns (c: Certificate)
    ensures Reckons(lib, s) ==> Certifies(lib, c) && s in c.arities
  {
    c := Certificate(map[], map[]);
    if Reckons(lib, s) {
      c :| Certifies(lib, c) && s in c.arities;
    }
  }
}
