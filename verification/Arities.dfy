/** Static inference of stack effects: what refuses recursion, underflow and lopsided branches. */
module Arities {
  import opened Wrappers
  import opened Prims
  import opened Terms
  import opened Libraries
  import opened Lowering
  import opened Heights
  import opened Promises

  datatype InferenceError =
    | ReachesItself(sentence: SentenceIndex)
    | LopsidedBranch(ifTrue: SentenceIndex, ifFalse: SentenceIndex)
    | BreaksAnnotation(sentence: SentenceIndex)

  class Inference {
    const lib: Library
    var memo: map<SentenceIndex, Arity>
    var inProgress: set<SentenceIndex>
    /** The order in which answers were recorded, which is an order in which calls only go down. */
    ghost var ranks: map<SentenceIndex, nat>
    /** A certificate the inference is held to: whatever it covers must be answered its way. */
    ghost const claim: Certificate

    ghost predicate Valid()
      reads this
    {
      && lib.Closed()
      && Certifies(lib, Certificate(memo, ranks))
      && (forall s | s in ranks :: ranks[s] < |memo|)
      && (forall s | s in inProgress :: s < |lib.sentences| && s !in memo)
    }

    constructor (lib: Library, ghost claim: Certificate)
      requires lib.Closed()
      ensures Valid() && this.lib == lib && this.claim == claim && memo == map[] && inProgress == {}
    {
      this.lib, memo, inProgress, ranks, this.claim := lib, map[], {}, map[], claim;
    }

    /** Answers are only added. */
    twostate predicate Learned()
      reads this
    {
      && old(Valid()) && Valid()
      && old(memo.Keys) <= memo.Keys && (forall s | s in old(memo) :: memo[s] == old(memo)[s])
    }

    /** The claim knows an answer for `s`, and nothing being worked out is below it. */
    ghost predicate Covers(s: SentenceIndex)
      reads this
    {
      && Certifies(lib, claim) && s in claim.arities
      && forall p | p in inProgress && p in claim.ranks :: claim.ranks[p] >= claim.ranks[s]
    }

    /** The same, and `s` itself is not being worked out. */
    ghost predicate Reachable(s: SentenceIndex)
      reads this
    {
      && Certifies(lib, claim) && s in claim.arities
      && forall p | p in inProgress && p in claim.ranks :: claim.ranks[p] > claim.ranks[s]
    }

    /** One sentence's effect, from the memo or worked out; whatever the claim covers is answered as it says. */
    method GetOrInfer(s: SentenceIndex) returns (r: Result<Arity, InferenceError>)
      requires Valid() && s < |lib.sentences|
      modifies this
      ensures Learned()
      ensures r.Ok? ==> inProgress == old(inProgress) && s in memo && memo[s] == r.value
      ensures old(Reachable(s)) ==> r == Ok(claim.arities[s])
      decreases |lib.sentences| - |inProgress|, 0
    {
      if s in memo {
        if Reachable(s) {
          CertificatesAgree(lib, Certificate(memo, ranks), claim, s);
        }
        return Ok(memo[s]);
      }
      if s in inProgress {
        return Err(ReachesItself(s));
      }
      ghost var before := inProgress;
      BoundedSet(inProgress + {s}, |lib.sentences|);
      inProgress := inProgress + {s};
      r := InferInstructions(s);
      if r.Err? {
        return;
      }
      inProgress := inProgress - {s};
      assert inProgress == before;
      Record(s, r.value);
    }

    /** The answer for `s`, whose callees have all been answered, goes into the memo. */
    method Record(s: SentenceIndex, arity: Arity)
      requires Valid() && s < |lib.sentences| && s !in memo && s !in inProgress
      requires CalleesKnown(s, |lib.sentences[s]|)
      requires PrefixEffect(lib.sentences[s], |lib.sentences[s]|, memo) == Some(arity)
      modifies this
      ensures Learned() && memo == old(memo)[s := arity] && inProgress == old(inProgress)
    {
      hide Certifies; hide PrefixEffect;
      Extended(lib, Certificate(memo, ranks), s, arity, |memo|);
      ranks := ranks[s := |memo|];
      memo := memo[s := arity];
    }

    ghost predicate CalleesKnown(s: SentenceIndex, k: nat)
      reads this
      requires s < |lib.sentences| && k <= |lib.sentences[s]|
    {
      forall ip | 0 <= ip < k :: lib.sentences[s][ip].Callees() <= memo.Keys
    }

    /** The instructions in order, the requirement and the height grown as each asks for it. */
    method InferInstructions(s: SentenceIndex) returns (r: Result<Arity, InferenceError>)
      requires Valid() && s < |lib.sentences| && s in inProgress
      modifies this
      ensures Learned()
      ensures r.Ok? ==> inProgress == old(inProgress) && CalleesKnown(s, |lib.sentences[s]|)
      ensures r.Ok? ==> PrefixEffect(lib.sentences[s], |lib.sentences[s]|, memo) == Some(r.value)
      ensures old(Covers(s)) ==> r == Ok(claim.arities[s])
      decreases |lib.sentences| - |inProgress|, 2
    {
      hide Certifies; hide PrefixEffect;
      var insts := lib.sentences[s];
      NothingKnownYet(s);
      var initialReq, currentSize := 0, 0;
      for ip := 0 to |insts|
        invariant Learned() && inProgress == old(inProgress)
        invariant initialReq >= 0 && currentSize >= 0 && CalleesKnown(s, ip)
        invariant PrefixEffect(insts, ip, memo) == Some(Arity(initialReq, currentSize))
      {
        ghost var was := memo;
        var next := InferInstruction(s, ip);
        if next.Err? {
          return next;
        }
        var effect := next.value;
        ghost var before := Arity(initialReq, currentSize);
        PrefixStep(s, ip, was, before, effect);
        if currentSize < effect.inputs {
          initialReq := initialReq + effect.inputs - currentSize;
          currentSize := effect.inputs;
        }
        currentSize := currentSize - effect.inputs + effect.outputs;
        assert Extend(before, effect) == Arity(initialReq, currentSize);
      }
      r := Ok(Arity(initialReq, currentSize));
      if Covers(s) {
        Forced(s, r.value);
      }
    }

    lemma NothingKnownYet(s: SentenceIndex)
      requires s < |lib.sentences|
      ensures CalleesKnown(s, 0) && PrefixEffect(lib.sentences[s], 0, memo) == Some(Arity(0, 0))
    {
    }

    lemma PrefixStep(s: SentenceIndex, ip: nat, was: map<SentenceIndex, Arity>, before: Arity, effect: Arity)
      requires s < |lib.sentences| && ip < |lib.sentences[s]|
      requires was.Keys <= memo.Keys && forall t | t in was :: memo[t] == was[t]
      requires forall k | 0 <= k < ip :: lib.sentences[s][k].Callees() <= was.Keys
      requires PrefixEffect(lib.sentences[s], ip, was) == Some(before)
      requires lib.sentences[s][ip].Callees() <= memo.Keys && InstEffect(lib.sentences[s][ip], memo) == Some(effect)
      ensures CalleesKnown(s, ip + 1)
      ensures PrefixEffect(lib.sentences[s], ip + 1, memo) == Some(Extend(before, effect))
    {
      PrefixesAgree(lib.sentences[s], ip, was, memo);
    }

    lemma Forced(s: SentenceIndex, arity: Arity)
      requires Valid() && Certifies(lib, claim) && s in claim.arities && s < |lib.sentences|
      requires CalleesKnown(s, |lib.sentences[s]|)
      requires PrefixEffect(lib.sentences[s], |lib.sentences[s]|, memo) == Some(arity)
      ensures arity == claim.arities[s]
    {
      var insts := lib.sentences[s];
      assert Justified(lib, claim, s);
      forall ip, t | 0 <= ip < |insts| && t in insts[ip].Callees()
        ensures t in claim.arities && memo[t] == claim.arities[t]
      {
        assert Lower(claim, s, insts[ip]);
        CertificatesAgree(lib, Certificate(memo, ranks), claim, t);
      }
      forall ip | 0 <= ip < |insts| ensures insts[ip].Callees() <= claim.arities.Keys {
        assert Lower(claim, s, insts[ip]);
      }
      PrefixesAgree(insts, |insts|, memo, claim.arities);
    }

    /** One instruction's effect, its callees answered first. */
    method InferInstruction(s: SentenceIndex, ip: nat) returns (r: Result<Arity, InferenceError>)
      requires Valid() && s < |lib.sentences| && s in inProgress && ip < |lib.sentences[s]|
      modifies this
      ensures Learned()
      ensures r.Ok? ==> inProgress == old(inProgress) && lib.sentences[s][ip].Callees() <= memo.Keys
      ensures r.Ok? ==> InstEffect(lib.sentences[s][ip], memo) == Some(r.value)
      ensures old(Covers(s)) ==> r.Ok?
      decreases |lib.sentences| - |inProgress|, 1
    {
      hide Certifies;
      CalleesCovered(s, ip);
      var inst := lib.sentences[s][ip];
      match inst {
        case Local(prim) => r := Ok(prim.Effect());
        case Drop => r := Ok(Arity(1, 0));
        case Copy => r := Ok(Arity(1, 2));
        case Jump(t) =>
          assert t in inst.Callees();
          r := GetOrInfer(t);
        case Dip(t) =>
          assert t in inst.Callees();
          r := GetOrInfer(t);
          if r.Ok? {
            // One more value is needed on the stack for the frame, and it comes back as it went.
            r := Ok(Arity(1 + r.value.inputs, 1 + r.value.outputs));
          }
        case Branch(t, f) =>
          assert t in inst.Callees() && f in inst.Callees();
          var yes := GetOrInfer(t);
          if yes.Err? { return yes; }
          var no := GetOrInfer(f);
          if no.Err? { return no; }
          var arm := CombineBranch(yes.value, no.value);
          if arm.None? {
            LopsidedHasNone(s, ip);
            return Err(LopsidedBranch(t, f));
          }
          r := Ok(Arity(arm.value.inputs + 1, arm.value.outputs));
      }
    }

    lemma CalleesCovered(s: SentenceIndex, ip: nat)
      requires Valid() && s < |lib.sentences| && ip < |lib.sentences[s]|
      ensures forall t | t in lib.sentences[s][ip].Callees() :: t < |lib.sentences|
      ensures Covers(s) ==> forall t | t in lib.sentences[s][ip].Callees() :: Reachable(t)
    {
      if Covers(s) {
        assert Justified(lib, claim, s) && Lower(claim, s, lib.sentences[s][ip]);
      }
    }

    /** A branch whose arms disagree on their net change has no effect under any certificate. */
    lemma LopsidedHasNone(s: SentenceIndex, ip: nat)
      requires Valid() && s < |lib.sentences| && ip < |lib.sentences[s]| && lib.sentences[s][ip].Branch?
      requires lib.sentences[s][ip].Callees() <= memo.Keys && InstEffect(lib.sentences[s][ip], memo).None?
      ensures !Covers(s)
    {
      var insts := lib.sentences[s];
      if Covers(s) {
        assert Justified(lib, claim, s) && Lower(claim, s, insts[ip]);
        CertificatesAgree(lib, Certificate(memo, ranks), claim, insts[ip].ifTrue);
        CertificatesAgree(lib, Certificate(memo, ranks), claim, insts[ip].ifFalse);
        forall k | 0 <= k < |insts| ensures insts[k].Callees() <= claim.arities.Keys {
          assert Lower(claim, s, insts[k]);
        }
        EveryPart(insts, |insts|, ip, claim.arities);
      }
    }
  }

  lemma {:induction false} EveryPart(insts: Sentence, k: nat, ip: nat, arities: map<SentenceIndex, Arity>)
    requires ip < k <= |insts| && forall j | 0 <= j < k :: insts[j].Callees() <= arities.Keys
    requires PrefixEffect(insts, k, arities).Some?
    ensures InstEffect(insts[ip], arities).Some?
  {
    if ip < k - 1 {
      EveryPart(insts, k - 1, ip, arities);
    }
  }

  /**
   * The whole library, sentence by sentence. It is accepted exactly when some certificate accepts it,
   * and the table that comes back is that certificate's. By heights alone: exactly when no sentence reaches itself,
   * every one comes to one height whichever arms are taken, and just what is declared of it leaves just what is
   * declared. Then the machine keeps every annotation.
   */
  method CheckArities(lib: Library)
    returns (r: Result<map<SentenceIndex, Arity>, InferenceError>, ghost ranks: map<SentenceIndex, nat>)
    requires lib.Closed()
    ensures r.Ok? ==> Accepts(lib, Certificate(r.value, ranks)) && Sane(lib, ranks)
    ensures r.Ok? ==> forall s, k | 0 <= s < |lib.sentences| && 0 <= k < |lib.annotations[s]| ::
      KeepsTo(lib, s, lib.annotations[s][k])
    ensures r.Err? ==> forall c: Certificate :: !Accepts(lib, c)
    ensures r.Err? ==> forall any: map<SentenceIndex, nat> :: !Sane(lib, any)
  {
    hide Certifies; hide Sane; hide KeepsTo;
    if any: map<SentenceIndex, nat> :| Sane(lib, any) {
      var c := SaneIsAccepted(lib, any);
    }
    ghost var claim := Certificate(map[], map[]);
    if c: Certificate :| Accepts(lib, c) {
      claim := c;
    }
    var inference := new Inference(lib, claim);
    for s := 0 to |lib.sentences|
      invariant inference.Valid() && inference.lib == lib && inference.inProgress == {} && inference.claim == claim
      invariant forall t | 0 <= t < s :: t in inference.memo && Declared(lib, t, inference.memo[t])
    {
      ranks := inference.ranks;
      var inferred := inference.GetOrInfer(s);
      if inferred.Err? {
        return Err(inferred.error), ranks;
      }
      if !MeetsAll(inferred.value, lib.annotations[s]) {
        return Err(BreaksAnnotation(s)), ranks;
      }
    }
    r, ranks := Ok(inference.memo), inference.ranks;
    AcceptedKeeps(lib, Certificate(r.value, ranks));
  }

  lemma AcceptedKeeps(lib: Library, c: Certificate)
    requires lib.Closed() && Accepts(lib, c)
    ensures Sane(lib, c.ranks)
    ensures forall s, k | 0 <= s < |lib.sentences| && 0 <= k < |lib.annotations[s]| ::
      KeepsTo(lib, s, lib.annotations[s][k])
  {
    hide Certifies; hide Sane; hide KeepsTo; hide Meets;
    AcceptedIsSane(lib, c);
    forall s, k | 0 <= s < |lib.sentences| && 0 <= k < |lib.annotations[s]|
      ensures KeepsTo(lib, s, lib.annotations[s][k])
    {
      assert Declared(lib, s, c.arities[s]);
      MeetsKeeps(lib, c, s, lib.annotations[s][k]);
    }
  }

  predicate MeetsAll(inferred: Arity, declared: seq<Arity>) {
    forall k | 0 <= k < |declared| :: Meets(inferred, declared[k])
  }

  /** One sentence's effect, worked out from scratch: what any certificate covering it says. */
  method SentenceArity(lib: Library, s: SentenceIndex, ghost claim: Certificate) returns (r: Option<Arity>)
    requires lib.Closed() && s < |lib.sentences|
    ensures r.Some? ==> exists c: Certificate :: Certifies(lib, c) && s in c.arities && c.arities[s] == r.value
    ensures Certifies(lib, claim) && s in claim.arities ==> r == Some(claim.arities[s])
  {
    var inference := new Inference(lib, claim);
    var inferred := inference.GetOrInfer(s);
    if inferred.Ok? {
      ghost var c := Certificate(inference.memo, inference.ranks);
      assert Certifies(lib, c) && s in c.arities;
      return Some(inferred.value);
    }
    return None;
  }
}
