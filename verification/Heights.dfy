/** How high a sentence may leave the stack, either arm of every branch being taken, and what that says of arities. */
module Heights {
  import opened Wrappers
  import opened Prims
  import opened Terms
  import opened Libraries

  /** Calls stay inside the library and only go down. */
  ghost predicate GoesDown(lib: Library, ranks: map<SentenceIndex, nat>) {
    lib.Closed() && Acyclic(lib, ranks)
  }

  // ---- the heights a sentence may come to ----

  /** From `h` values to `e`, where `None` is that they ran out. */
  predicate Moves(effect: Arity, h: nat, e: Option<nat>) {
    e == if h < effect.inputs then None else Some(h - effect.inputs + effect.outputs)
  }

  /** One instruction on `h` values; a branch may take either arm. */
  ghost predicate MayDo(
    lib: Library, ranks: map<SentenceIndex, nat>, s: SentenceIndex, ip: nat, h: nat, e: Option<nat>)
    requires GoesDown(lib, ranks) && s < |lib.sentences| && ip < |lib.sentences[s]|
    decreases ranks[s], 0
  {
    CalleesBelow(lib, ranks, s, ip);
    match lib.sentences[s][ip]
    case Local(prim) => Moves(prim.Effect(), h, e)
    case Drop => Moves(Arity(1, 0), h, e)
    case Copy => Moves(Arity(1, 2), h, e)
    case Jump(t) => MayRun(lib, ranks, t, h, e)
    case Dip(t) =>
      if h == 0 then e.None?
      else if e.None? then MayRun(lib, ranks, t, h - 1, None)
      else e.value > 0 && MayRun(lib, ranks, t, h - 1, Some(e.value - 1))
    case Branch(t, f) =>
      if h == 0 then e.None? else MayRun(lib, ranks, t, h - 1, e) || MayRun(lib, ranks, f, h - 1, e)
  }

  lemma CalleesBelow(lib: Library, ranks: map<SentenceIndex, nat>, s: SentenceIndex, ip: nat)
    requires GoesDown(lib, ranks) && s < |lib.sentences| && ip < |lib.sentences[s]|
    ensures s in ranks && forall t | t in lib.sentences[s][ip].Callees() :: t in ranks && ranks[t] < ranks[s]
    ensures match lib.sentences[s][ip]
      case Jump(t) => t < |lib.sentences| && ranks[t] < ranks[s]
      case Dip(t) => t < |lib.sentences| && ranks[t] < ranks[s]
      case Branch(t, f) => t < |lib.sentences| && ranks[t] < ranks[s] && f < |lib.sentences| && ranks[f] < ranks[s]
      case _ => true
  {
    var inst := lib.sentences[s][ip];
    match inst
    case Jump(t) => assert t in inst.Callees();
    case Dip(t) => assert t in inst.Callees();
    case Branch(t, f) => assert t in inst.Callees() && f in inst.Callees();
    case _ =>
  }

  /** The instructions from `i` up to `k`. */
  ghost predicate MayReach(
    lib: Library, ranks: map<SentenceIndex, nat>, s: SentenceIndex, i: nat, k: nat, h: nat, e: Option<nat>)
    requires GoesDown(lib, ranks) && s < |lib.sentences| && i <= k <= |lib.sentences[s]|
    decreases ranks[s], 1, k
  {
    if i == k then e == Some(h)
    else
      || (e.None? && MayReach(lib, ranks, s, i, k - 1, h, None))
      || exists m: nat :: MayReach(lib, ranks, s, i, k - 1, h, Some(m)) && MayDo(lib, ranks, s, k - 1, m, e)
  }

  /** The whole sentence. */
  ghost predicate MayRun(lib: Library, ranks: map<SentenceIndex, nat>, s: SentenceIndex, h: nat, e: Option<nat>)
    requires GoesDown(lib, ranks) && s < |lib.sentences|
    decreases ranks[s], 2
  {
    MayReach(lib, ranks, s, 0, |lib.sentences[s]|, h, e)
  }

  /**
   * Whichever arms are taken, `a.inputs` values are enough for the first `k` instructions and `a.outputs` come of them;
   * with fewer, some way through runs out.
   */
  ghost predicate HasEffect(lib: Library, ranks: map<SentenceIndex, nat>, s: SentenceIndex, k: nat, a: Arity)
    requires GoesDown(lib, ranks) && s < |lib.sentences| && k <= |lib.sentences[s]|
  {
    && (forall h: nat | h < a.inputs :: MayReach(lib, ranks, s, 0, k, h, None))
    && forall h: nat, e | h >= a.inputs ::
      MayReach(lib, ranks, s, 0, k, h, e) <==> e == Some(h - a.inputs + a.outputs)
  }

  ghost predicate DoesEffect(lib: Library, ranks: map<SentenceIndex, nat>, s: SentenceIndex, ip: nat, a: Arity)
    requires GoesDown(lib, ranks) && s < |lib.sentences| && ip < |lib.sentences[s]|
  {
    && (forall h: nat | h < a.inputs :: MayDo(lib, ranks, s, ip, h, None))
    && forall h: nat, e | h >= a.inputs :: MayDo(lib, ranks, s, ip, h, e) <==> e == Some(h - a.inputs + a.outputs)
  }

  /** On just the values that are declared, whichever arms are taken, what is declared is left and nothing runs out. */
  ghost predicate Leaves(lib: Library, ranks: map<SentenceIndex, nat>, s: SentenceIndex, declared: Arity)
    requires GoesDown(lib, ranks) && s < |lib.sentences|
  {
    forall e :: MayRun(lib, ranks, s, declared.inputs, e) <==> e == Some(declared.outputs)
  }

  // ---- certified arities are those heights ----

  /** The arities of the callees are theirs. */
  ghost predicate CalleesHave(
    lib: Library, ranks: map<SentenceIndex, nat>, s: SentenceIndex, ip: nat, arities: map<SentenceIndex, Arity>)
    requires GoesDown(lib, ranks) && s < |lib.sentences| && ip < |lib.sentences[s]|
  {
    forall t | t in lib.sentences[s][ip].Callees() ::
      t < |lib.sentences| && t in arities && HasEffect(lib, ranks, t, |lib.sentences[t]|, arities[t])
  }

  lemma InstHas(
    lib: Library, ranks: map<SentenceIndex, nat>, s: SentenceIndex, ip: nat, arities: map<SentenceIndex, Arity>)
    requires GoesDown(lib, ranks) && s < |lib.sentences| && ip < |lib.sentences[s]|
    requires CalleesHave(lib, ranks, s, ip, arities) && lib.sentences[s][ip].Callees() <= arities.Keys
    requires InstEffect(lib.sentences[s][ip], arities).Some?
    ensures DoesEffect(lib, ranks, s, ip, InstEffect(lib.sentences[s][ip], arities).value)
  {
    hide GoesDown; hide MayDo; hide InstEffect; hide CalleesHave;
    var a := InstEffect(lib.sentences[s][ip], arities).value;
    forall h: nat, e
      ensures h < a.inputs ==> MayDo(lib, ranks, s, ip, h, None)
      ensures h >= a.inputs ==> (MayDo(lib, ranks, s, ip, h, e) <==> e == Some(h - a.inputs + a.outputs))
    {
      InstHasAt(lib, ranks, s, ip, arities, h, e);
    }
  }

  lemma InstHasAt(
    lib: Library, ranks: map<SentenceIndex, nat>, s: SentenceIndex, ip: nat, arities: map<SentenceIndex, Arity>, h: nat,
    e: Option<nat>)
    requires GoesDown(lib, ranks) && s < |lib.sentences| && ip < |lib.sentences[s]|
    requires CalleesHave(lib, ranks, s, ip, arities) && lib.sentences[s][ip].Callees() <= arities.Keys
    requires InstEffect(lib.sentences[s][ip], arities).Some?
    ensures var a := InstEffect(lib.sentences[s][ip], arities).value;
      if h < a.inputs then MayDo(lib, ranks, s, ip, h, None)
      else MayDo(lib, ranks, s, ip, h, e) <==> e == Some(h - a.inputs + a.outputs)
  {
    hide GoesDown; hide MayReach; hide MayRun; hide HasEffect;
    CalleesBelow(lib, ranks, s, ip);
    var inst := lib.sentences[s][ip];
    match inst {
      case Jump(t) =>
        assert t in inst.Callees();
        RunsTo(lib, ranks, t, arities[t], h, e);
      case Dip(t) =>
        assert t in inst.Callees();
        if h > 0 { RunsTo(lib, ranks, t, arities[t], h - 1, None); }
        if h > 0 && e.Some? && e.value > 0 { RunsTo(lib, ranks, t, arities[t], h - 1, Some(e.value - 1)); }
      case Branch(t, f) =>
        assert t in inst.Callees() && f in inst.Callees();
        if h > 0 {
          RunsTo(lib, ranks, t, arities[t], h - 1, e);
          RunsTo(lib, ranks, f, arities[f], h - 1, e);
        }
      case _ =>
    }
  }

  lemma RunsTo(lib: Library, ranks: map<SentenceIndex, nat>, t: SentenceIndex, a: Arity, h: nat, e: Option<nat>)
    requires GoesDown(lib, ranks) && t < |lib.sentences| && HasEffect(lib, ranks, t, |lib.sentences[t]|, a)
    ensures h < a.inputs ==> MayRun(lib, ranks, t, h, None)
    ensures h >= a.inputs ==> (MayRun(lib, ranks, t, h, e) <==> e == Some(h - a.inputs + a.outputs))
  {
    hide GoesDown; hide MayReach;
  }

  lemma Extends(
    lib: Library, ranks: map<SentenceIndex, nat>, s: SentenceIndex, k: nat, before: Arity, next: Arity)
    requires GoesDown(lib, ranks) && s < |lib.sentences| && 0 < k <= |lib.sentences[s]|
    requires HasEffect(lib, ranks, s, k - 1, before) && DoesEffect(lib, ranks, s, k - 1, next)
    ensures HasEffect(lib, ranks, s, k, Extend(before, next))
  {
    hide GoesDown; hide MayDo; hide MayReach;
    var a := Extend(before, next);
    forall h: nat, e
      ensures h < a.inputs ==> MayReach(lib, ranks, s, 0, k, h, None)
      ensures h >= a.inputs ==> (MayReach(lib, ranks, s, 0, k, h, e) <==> e == Some(h - a.inputs + a.outputs))
    {
      LastOf(lib, ranks, s, k, h, e);
      LastOf(lib, ranks, s, k, h, None);
      if h >= before.inputs {
        var m: nat := h - before.inputs + before.outputs;
        assert MayReach(lib, ranks, s, 0, k - 1, h, Some(m));
        if h < a.inputs {
          assert MayDo(lib, ranks, s, k - 1, m, None);
        } else {
          assert MayDo(lib, ranks, s, k - 1, m, e) <==> e == Some(h - a.inputs + a.outputs);
        }
      }
    }
  }

  lemma LastOf(lib: Library, ranks: map<SentenceIndex, nat>, s: SentenceIndex, k: nat, h: nat, e: Option<nat>)
    requires GoesDown(lib, ranks) && s < |lib.sentences| && 0 < k <= |lib.sentences[s]|
    ensures MayReach(lib, ranks, s, 0, k, h, e) <==>
      || (e.None? && MayReach(lib, ranks, s, 0, k - 1, h, None))
      || exists m: nat :: MayReach(lib, ranks, s, 0, k - 1, h, Some(m)) && MayDo(lib, ranks, s, k - 1, m, e)
  {
  }

  lemma {:induction false} PrefixHas(
    lib: Library, ranks: map<SentenceIndex, nat>, s: SentenceIndex, k: nat, arities: map<SentenceIndex, Arity>)
    requires GoesDown(lib, ranks) && s < |lib.sentences| && k <= |lib.sentences[s]|
    requires forall ip | 0 <= ip < k ::
      CalleesHave(lib, ranks, s, ip, arities) && lib.sentences[s][ip].Callees() <= arities.Keys
    requires PrefixEffect(lib.sentences[s], k, arities).Some?
    ensures HasEffect(lib, ranks, s, k, PrefixEffect(lib.sentences[s], k, arities).value)
    decreases k
  {
    hide GoesDown; hide MayDo; hide CalleesHave; hide InstEffect; hide DoesEffect; hide Extend;
    if k > 0 {
      hide MayReach; hide HasEffect;
      PrefixHas(lib, ranks, s, k - 1, arities);
      InstHas(lib, ranks, s, k - 1, arities);
      Extends(lib, ranks, s, k, PrefixEffect(lib.sentences[s], k - 1, arities).value,
        InstEffect(lib.sentences[s][k - 1], arities).value);
    }
  }

  /** A certified arity is what the sentence takes and leaves, whichever arms are taken. */
  lemma {:induction false} CertifiedHas(
    lib: Library, ranks: map<SentenceIndex, nat>, c: Certificate, s: SentenceIndex)
    requires GoesDown(lib, ranks) && Certifies(lib, c) && s in c.arities
    ensures HasEffect(lib, ranks, s, |lib.sentences[s]|, c.arities[s])
    decreases c.ranks[s]
  {
    hide GoesDown; hide HasEffect; hide PrefixEffect;
    assert Justified(lib, c, s);
    var insts := lib.sentences[s];
    forall ip | 0 <= ip < |insts|
      ensures CalleesHave(lib, ranks, s, ip, c.arities) && insts[ip].Callees() <= c.arities.Keys
    {
      assert Lower(c, s, insts[ip]);
      forall t | t in insts[ip].Callees() ensures HasEffect(lib, ranks, t, |lib.sentences[t]|, c.arities[t]) {
        CertifiedHas(lib, ranks, c, t);
      }
    }
    PrefixHas(lib, ranks, s, |insts|, c.arities);
  }

  /** To meet a declaration is to leave what is declared on just what is declared. */
  lemma MeetsLeaves(lib: Library, ranks: map<SentenceIndex, nat>, s: SentenceIndex, inferred: Arity, declared: Arity)
    requires GoesDown(lib, ranks) && s < |lib.sentences|
    requires HasEffect(lib, ranks, s, |lib.sentences[s]|, inferred)
    ensures Meets(inferred, declared) <==> Leaves(lib, ranks, s, declared)
  {
    hide GoesDown; hide MayReach;
    var h := declared.inputs;
    if h < inferred.inputs {
      assert MayRun(lib, ranks, s, h, None);
    } else {
      var left := Some(h - inferred.inputs + inferred.outputs);
      assert MayRun(lib, ranks, s, h, left);
      forall e ensures MayRun(lib, ranks, s, h, e) <==> e == left {
        assert MayRun(lib, ranks, s, h, e) <==> MayReach(lib, ranks, s, 0, |lib.sentences[s]|, h, e);
      }
    }
  }

  // ---- heights that are fixed can be certified ----

  lemma OneEffect(
    lib: Library, ranks: map<SentenceIndex, nat>, s: SentenceIndex, k: nat, a: Arity, b: Arity)
    requires GoesDown(lib, ranks) && s < |lib.sentences| && k <= |lib.sentences[s]|
    requires HasEffect(lib, ranks, s, k, a) && HasEffect(lib, ranks, s, k, b)
    ensures a == b
  {
    hide GoesDown; hide MayReach;
    assert !MayReach(lib, ranks, s, 0, k, a.inputs, None);
    assert !MayReach(lib, ranks, s, 0, k, b.inputs, None);
    assert MayReach(lib, ranks, s, 0, k, a.inputs, Some(a.outputs));
  }

  /** On more values, so many more are left. */
  lemma {:induction false} MoreReach(
    lib: Library, ranks: map<SentenceIndex, nat>, s: SentenceIndex, i: nat, k: nat, h: nat, e: nat, d: nat)
    requires GoesDown(lib, ranks) && s < |lib.sentences| && i <= k <= |lib.sentences[s]|
    requires MayReach(lib, ranks, s, i, k, h, Some(e))
    ensures MayReach(lib, ranks, s, i, k, h + d, Some(e + d))
    decreases ranks[s], 1, k
  {
    hide GoesDown; hide MayDo;
    if i < k {
      var m: nat :| MayReach(lib, ranks, s, i, k - 1, h, Some(m)) && MayDo(lib, ranks, s, k - 1, m, Some(e));
      MoreReach(lib, ranks, s, i, k - 1, h, m, d);
      MoreDo(lib, ranks, s, k - 1, m, e, d);
      assert MayReach(lib, ranks, s, i, k - 1, h + d, Some(m + d));
    }
  }

  lemma {:induction false} MoreDo(
    lib: Library, ranks: map<SentenceIndex, nat>, s: SentenceIndex, ip: nat, h: nat, e: nat, d: nat)
    requires GoesDown(lib, ranks) && s < |lib.sentences| && ip < |lib.sentences[s]|
    requires MayDo(lib, ranks, s, ip, h, Some(e))
    ensures MayDo(lib, ranks, s, ip, h + d, Some(e + d))
    decreases ranks[s], 0
  {
    hide GoesDown; hide MayReach;
    CalleesBelow(lib, ranks, s, ip);
    match lib.sentences[s][ip]
    case Jump(t) => MoreReach(lib, ranks, t, 0, |lib.sentences[t]|, h, e, d);
    case Dip(t) => MoreReach(lib, ranks, t, 0, |lib.sentences[t]|, h - 1, e - 1, d);
    case Branch(t, f) =>
      if MayRun(lib, ranks, t, h - 1, Some(e)) {
        MoreReach(lib, ranks, t, 0, |lib.sentences[t]|, h - 1, e, d);
      } else {
        MoreReach(lib, ranks, f, 0, |lib.sentences[f]|, h - 1, e, d);
      }
    case _ =>
  }

  /** There is always some way on. */
  lemma {:induction false} SomeReach(
    lib: Library, ranks: map<SentenceIndex, nat>, s: SentenceIndex, i: nat, k: nat, h: nat) returns (e: Option<nat>)
    requires GoesDown(lib, ranks) && s < |lib.sentences| && i <= k <= |lib.sentences[s]|
    ensures MayReach(lib, ranks, s, i, k, h, e)
    decreases ranks[s], 1, k
  {
    hide GoesDown; hide MayDo;
    if i == k {
      return Some(h);
    }
    var m := SomeReach(lib, ranks, s, i, k - 1, h);
    if m.None? {
      return None;
    }
    e := SomeDo(lib, ranks, s, k - 1, m.value);
    assert MayReach(lib, ranks, s, i, k - 1, h, Some(m.value));
  }

  lemma {:induction false} SomeDo(
    lib: Library, ranks: map<SentenceIndex, nat>, s: SentenceIndex, ip: nat, h: nat) returns (e: Option<nat>)
    requires GoesDown(lib, ranks) && s < |lib.sentences| && ip < |lib.sentences[s]|
    ensures MayDo(lib, ranks, s, ip, h, e)
    decreases ranks[s], 0
  {
    hide GoesDown; hide MayReach;
    CalleesBelow(lib, ranks, s, ip);
    match lib.sentences[s][ip] {
      case Local(prim) =>
        e := if h < prim.Effect().inputs then None else Some(h - prim.Effect().inputs + prim.Effect().outputs);
      case Drop => e := if h < 1 then None else Some(h - 1);
      case Copy => e := if h < 1 then None else Some(h + 1);
      case Jump(t) => e := SomeReach(lib, ranks, t, 0, |lib.sentences[t]|, h);
      case Dip(t) =>
        if h == 0 {
          return None;
        }
        var out := SomeReach(lib, ranks, t, 0, |lib.sentences[t]|, h - 1);
        e := match out case None => None case Some(n) => Some(n + 1);
      case Branch(t, f) =>
        if h == 0 {
          return None;
        }
        e := SomeReach(lib, ranks, t, 0, |lib.sentences[t]|, h - 1);
    }
  }

  lemma {:induction false} ReachJoins(
    lib: Library, ranks: map<SentenceIndex, nat>, s: SentenceIndex, i: nat, k: nat, h: nat, m: nat, e: Option<nat>)
    requires GoesDown(lib, ranks) && s < |lib.sentences| && i <= k <= |lib.sentences[s]|
    requires MayReach(lib, ranks, s, 0, i, h, Some(m)) && MayReach(lib, ranks, s, i, k, m, e)
    ensures MayReach(lib, ranks, s, 0, k, h, e)
    decreases k
  {
    hide GoesDown; hide MayDo;
    if i < k {
      if e.None? && MayReach(lib, ranks, s, i, k - 1, m, None) {
        ReachJoins(lib, ranks, s, i, k - 1, h, m, None);
      } else {
        var n: nat :| MayReach(lib, ranks, s, i, k - 1, m, Some(n)) && MayDo(lib, ranks, s, k - 1, n, e);
        ReachJoins(lib, ranks, s, i, k - 1, h, m, Some(n));
        assert MayReach(lib, ranks, s, 0, k - 1, h, Some(n));
      }
    }
  }

  /** Where a sentence comes to one height, so does every instruction on the way. */
  lemma NoTwoWays(
    lib: Library, ranks: map<SentenceIndex, nat>, s: SentenceIndex, ip: nat, a: Arity, h: nat, m: nat, x: nat, y: nat)
    requires GoesDown(lib, ranks) && s < |lib.sentences| && ip < |lib.sentences[s]|
    requires HasEffect(lib, ranks, s, |lib.sentences[s]|, a) && h >= a.inputs && x <= y
    requires MayReach(lib, ranks, s, 0, ip, h, Some(m))
    requires MayDo(lib, ranks, s, ip, m, Some(x)) && MayDo(lib, ranks, s, ip, m, Some(y))
    ensures x == y
  {
    hide GoesDown; hide MayDo; hide MayReach;
    var n := |lib.sentences[s]|;
    Onward(lib, ranks, s, ip, h, m, x);
    Onward(lib, ranks, s, ip, h, m, y);
    var e := SomeReach(lib, ranks, s, ip + 1, n, x);
    ReachJoins(lib, ranks, s, ip + 1, n, h, x, e);
    assert e == Some(h - a.inputs + a.outputs);
    MoreReach(lib, ranks, s, ip + 1, n, x, e.value, y - x);
    ReachJoins(lib, ranks, s, ip + 1, n, h, y, Some(e.value + (y - x)));
  }

  lemma Onward(
    lib: Library, ranks: map<SentenceIndex, nat>, s: SentenceIndex, ip: nat, h: nat, m: nat, x: nat)
    requires GoesDown(lib, ranks) && s < |lib.sentences| && ip < |lib.sentences[s]|
    requires MayReach(lib, ranks, s, 0, ip, h, Some(m)) && MayDo(lib, ranks, s, ip, m, Some(x))
    ensures MayReach(lib, ranks, s, 0, ip + 1, h, Some(x))
  {
  }

  /** So the arms of a branch on the way change the height alike. */
  lemma ArmsAlike(
    lib: Library, ranks: map<SentenceIndex, nat>, s: SentenceIndex, ip: nat, arities: map<SentenceIndex, Arity>,
    a: Arity)
    requires GoesDown(lib, ranks) && s < |lib.sentences| && ip < |lib.sentences[s]|
    requires forall k | 0 <= k <= ip ::
      CalleesHave(lib, ranks, s, k, arities) && lib.sentences[s][k].Callees() <= arities.Keys
    requires PrefixEffect(lib.sentences[s], ip, arities).Some?
    requires HasEffect(lib, ranks, s, |lib.sentences[s]|, a)
    ensures InstEffect(lib.sentences[s][ip], arities).Some?
  {
    hide GoesDown; hide MayReach; hide PrefixEffect;
    if lib.sentences[s][ip].Branch? && InstEffect(lib.sentences[s][ip], arities).None? {
      var (t, f) := (lib.sentences[s][ip].ifTrue, lib.sentences[s][ip].ifFalse);
      CalleesBelow(lib, ranks, s, ip);
      PrefixHas(lib, ranks, s, ip, arities);
      var p := PrefixEffect(lib.sentences[s], ip, arities).value;
      var (yes, no) := (arities[t], arities[f]);
      var h := a.inputs + p.inputs + yes.inputs + no.inputs + 1;
      var m := h - p.inputs + p.outputs;
      assert MayReach(lib, ranks, s, 0, ip, h, Some(m));
      var x, y := m - 1 - yes.inputs + yes.outputs, m - 1 - no.inputs + no.outputs;
      BranchMay(lib, ranks, s, ip, arities, m);
      if x <= y {
        NoTwoWays(lib, ranks, s, ip, a, h, m, x, y);
      } else {
        NoTwoWays(lib, ranks, s, ip, a, h, m, y, x);
      }
    }
  }

  lemma BranchMay(
    lib: Library, ranks: map<SentenceIndex, nat>, s: SentenceIndex, ip: nat, arities: map<SentenceIndex, Arity>, m: nat)
    requires GoesDown(lib, ranks) && s < |lib.sentences| && ip < |lib.sentences[s]| && lib.sentences[s][ip].Branch?
    requires CalleesHave(lib, ranks, s, ip, arities) && lib.sentences[s][ip].Callees() <= arities.Keys
    requires forall t | t in lib.sentences[s][ip].Callees() :: m > arities[t].inputs
    ensures forall t | t in lib.sentences[s][ip].Callees() ::
      MayDo(lib, ranks, s, ip, m, Some(m - 1 - arities[t].inputs + arities[t].outputs))
  {
    hide GoesDown; hide MayReach;
    CalleesBelow(lib, ranks, s, ip);
    forall t | t in lib.sentences[s][ip].Callees()
      ensures MayDo(lib, ranks, s, ip, m, Some(m - 1 - arities[t].inputs + arities[t].outputs))
    {
      assert HasEffect(lib, ranks, t, |lib.sentences[t]|, arities[t]);
      assert MayRun(lib, ranks, t, m - 1, Some(m - 1 - arities[t].inputs + arities[t].outputs));
    }
  }

  lemma {:induction false} PrefixFixed(
    lib: Library, ranks: map<SentenceIndex, nat>, s: SentenceIndex, k: nat, arities: map<SentenceIndex, Arity>,
    a: Arity)
    requires GoesDown(lib, ranks) && s < |lib.sentences| && k <= |lib.sentences[s]|
    requires forall ip | 0 <= ip < |lib.sentences[s]| ::
      CalleesHave(lib, ranks, s, ip, arities) && lib.sentences[s][ip].Callees() <= arities.Keys
    requires HasEffect(lib, ranks, s, |lib.sentences[s]|, a)
    ensures PrefixEffect(lib.sentences[s], k, arities).Some?
    decreases k
  {
    hide GoesDown; hide HasEffect; hide CalleesHave; hide InstEffect;
    if k > 0 {
      PrefixFixed(lib, ranks, s, k - 1, arities, a);
      ArmsAlike(lib, ranks, s, k - 1, arities, a);
    }
  }

  /** The sentence comes to one height, whichever arms are taken. */
  ghost predicate Fixed(lib: Library, ranks: map<SentenceIndex, nat>, s: SentenceIndex)
    requires GoesDown(lib, ranks) && s < |lib.sentences|
  {
    exists a :: HasEffect(lib, ranks, s, |lib.sentences[s]|, a)
  }

  ghost function FixedEffect(lib: Library, ranks: map<SentenceIndex, nat>, s: SentenceIndex): (a: Arity)
    requires GoesDown(lib, ranks) && s < |lib.sentences| && Fixed(lib, ranks, s)
    ensures HasEffect(lib, ranks, s, |lib.sentences[s]|, a)
  {
    var a :| HasEffect(lib, ranks, s, |lib.sentences[s]|, a);
    a
  }

  /** Every sentence does. */
  ghost predicate AllFixed(lib: Library, ranks: map<SentenceIndex, nat>)
    requires GoesDown(lib, ranks)
  {
    forall s: nat | s < |lib.sentences| :: Fixed(lib, ranks, s)
  }

  /** Sentences that come to one height each have stack effects, and those are they. */
  lemma FixedIsCertified(lib: Library, ranks: map<SentenceIndex, nat>) returns (c: Certificate)
    requires GoesDown(lib, ranks) && AllFixed(lib, ranks)
    ensures Certifies(lib, c) && forall s | 0 <= s < |lib.sentences| :: s in c.arities
  {
    hide GoesDown; hide HasEffect; hide PrefixEffect;
    RanksCover(lib, ranks);
    var arities := map s: nat | s < |lib.sentences| :: FixedEffect(lib, ranks, s);
    c := Certificate(arities, map s: nat | s < |lib.sentences| :: ranks[s]);
    forall s | s in c.arities ensures Justified(lib, c, s) {
      forall ip | 0 <= ip < |lib.sentences[s]|
        ensures Lower(c, s, lib.sentences[s][ip])
        ensures CalleesHave(lib, ranks, s, ip, arities) && lib.sentences[s][ip].Callees() <= arities.Keys
      {
        CalleesBelow(lib, ranks, s, ip);
      }
      var n := |lib.sentences[s]|;
      PrefixFixed(lib, ranks, s, n, arities, arities[s]);
      PrefixHas(lib, ranks, s, n, arities);
      OneEffect(lib, ranks, s, n, PrefixEffect(lib.sentences[s], n, arities).value, arities[s]);
    }
  }

  lemma RanksCover(lib: Library, ranks: map<SentenceIndex, nat>)
    requires GoesDown(lib, ranks)
    ensures forall s: nat | s < |lib.sentences| :: s in ranks
  {
  }

  // ---- what is accepted, by heights alone ----

  /**
   * No sentence reaches itself, every one comes to one height whichever arms are taken, and on just what is declared of
   * it leaves just what is declared.
   */
  ghost predicate Sane(lib: Library, ranks: map<SentenceIndex, nat>)
  {
    && GoesDown(lib, ranks) && AllFixed(lib, ranks)
    && forall s, k | 0 <= s < |lib.sentences| && 0 <= k < |lib.annotations[s]| ::
      Leaves(lib, ranks, s, lib.annotations[s][k])
  }

  lemma CertifiedDescends(lib: Library, c: Certificate)
    requires lib.Closed() && Certifies(lib, c) && forall s | 0 <= s < |lib.sentences| :: s in c.arities
    ensures GoesDown(lib, c.ranks)
  {
    forall s, ip | 0 <= s < |lib.sentences| && 0 <= ip < |lib.sentences[s]|
      ensures forall t | t in lib.sentences[s][ip].Callees() :: t in c.ranks && c.ranks[t] < c.ranks[s]
    {
      assert Justified(lib, c, s) && Lower(c, s, lib.sentences[s][ip]);
    }
  }

  lemma CertifiedIsFixed(lib: Library, c: Certificate)
    requires lib.Closed() && Certifies(lib, c) && forall s | 0 <= s < |lib.sentences| :: s in c.arities
    ensures GoesDown(lib, c.ranks) && AllFixed(lib, c.ranks)
  {
    hide GoesDown; hide HasEffect; hide Certifies;
    CertifiedDescends(lib, c);
    forall s: nat | s < |lib.sentences| ensures Fixed(lib, c.ranks, s) {
      CertifiedHas(lib, c.ranks, c, s);
    }
  }

  lemma AcceptedIsSane(lib: Library, c: Certificate)
    requires lib.Closed() && Accepts(lib, c)
    ensures Sane(lib, c.ranks)
  {
    hide GoesDown; hide HasEffect; hide Certifies; hide Meets; hide Leaves; hide AllFixed;
    CertifiedIsFixed(lib, c);
    forall s, k | 0 <= s < |lib.sentences| && 0 <= k < |lib.annotations[s]|
      ensures Leaves(lib, c.ranks, s, lib.annotations[s][k])
    {
      CertifiedHas(lib, c.ranks, c, s);
      assert Declared(lib, s, c.arities[s]);
      MeetsLeaves(lib, c.ranks, s, c.arities[s], lib.annotations[s][k]);
    }
  }

  /** With stack effects throughout, what is not accepted is an annotation: it declares too little, or another net. */
  lemma RefusedLeavesElse(lib: Library, c: Certificate)
    requires lib.Closed() && Certifies(lib, c) && forall s | 0 <= s < |lib.sentences| :: s in c.arities
    requires !Accepts(lib, c)
    ensures GoesDown(lib, c.ranks)
    ensures exists s: nat, k | s < |lib.sentences| && 0 <= k < |lib.annotations[s]| ::
      !Leaves(lib, c.ranks, s, lib.annotations[s][k])
  {
    hide GoesDown; hide HasEffect; hide Certifies; hide Meets; hide Leaves; hide AllFixed;
    CertifiedIsFixed(lib, c);
    var s: nat :| s < |lib.sentences| && !Declared(lib, s, c.arities[s]);
    var k :| 0 <= k < |lib.annotations[s]| && !Meets(c.arities[s], lib.annotations[s][k]);
    CertifiedHas(lib, c.ranks, c, s);
    MeetsLeaves(lib, c.ranks, s, c.arities[s], lib.annotations[s][k]);
  }

  lemma SaneIsAccepted(lib: Library, ranks: map<SentenceIndex, nat>) returns (c: Certificate)
    requires lib.Closed() && Sane(lib, ranks)
    ensures Accepts(lib, c)
  {
    hide GoesDown; hide HasEffect; hide Certifies; hide Meets; hide Leaves;
    c := FixedIsCertified(lib, ranks);
    forall s | 0 <= s < |lib.sentences| ensures Declared(lib, s, c.arities[s]) {
      CertifiedHas(lib, ranks, c, s);
      forall k | 0 <= k < |lib.annotations[s]| ensures Meets(c.arities[s], lib.annotations[s][k]) {
        MeetsLeaves(lib, ranks, s, c.arities[s], lib.annotations[s][k]);
      }
    }
  }
}
