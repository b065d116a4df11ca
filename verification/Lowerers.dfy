/** Lowering as it is done: into an arena, each block built once and pointed at from then on. */
module Lowerers {
  import opened Wrappers
  import opened Values
  import opened Terms
  import opened Prims
  import opened Libraries
  import opened Arities
  import opened Meanings
  import opened Lowering

  class Lowerer {
    const library: Library
    const ctx: Context
    var arities: map<SentenceIndex, Arity>
    var blocks: map<SentenceIndex, TermIndex>
    ghost const ranks: map<SentenceIndex, nat>
    /** A certificate the lowering is held to: what it covers must come out as the term it stands for. */
    ghost const claim: Certificate

    ghost predicate Valid()
      reads this, ctx
    {
      && library.Closed() && Acyclic(library, ranks) && ctx.Valid()
      && (forall s | s in arities && Covered(library, claim, s) :: arities[s] == claim.arities[s])
      && (forall s | s in blocks :: ctx.Has(blocks[s]) && Stands(s, ctx.At(blocks[s])))
    }

    /** A tree fit to stand for `s`: well formed, and the claimed one if the claim has one. */
    ghost predicate Stands(s: SentenceIndex, t: Tree) {
      t.Ok() && (Covered(library, claim, s) ==> t == LowerSentence(library, claim, s))
    }

    constructor (library: Library, ctx: Context, ghost ranks: map<SentenceIndex, nat>, ghost claim: Certificate)
      requires library.Closed() && Acyclic(library, ranks) && ctx.Valid()
      ensures Valid() && this.library == library && this.ctx == ctx && this.claim == claim
    {
      this.library, this.ctx, arities, blocks, this.ranks, this.claim := library, ctx, map[], map[], ranks, claim;
    }

    /** The instructions folded left, widening at each step whichever side is narrower. */
    method Sentence(s: SentenceIndex) returns (r: Result<TermIndex, Error>)
      requires Valid() && s < |library.sentences|
      modifies this, ctx
      ensures Valid() && ctx.Grew() && Shared()
      ensures r.Ok? ==> ctx.Has(r.value) && Stands(s, ctx.At(r.value))
      ensures Covered(library, claim, s) ==> r.Ok?
      decreases ranks[s], 2
    {
      hide Covered; hide LowerInst; hide Tree.Ok; hide Tree.Effect; hide Composed; hide Acyclic; hide LowerTarget;
      hide Library.Closed;
      LeavesOk();
      var acc: Option<TermIndex> := None;
      for ip := 0 to |library.sentences[s]|
        invariant Valid() && ctx.Grew() && Shared() && Folded(s, ip, acc)
      {
        var next := Fold(s, ip, acc);
        if next.Err? {
          return next;
        }
        acc := Some(next.value);
      }
      if acc.Some? {
        r := Ok(acc.value);
      } else {
        var i := ctx.Push(Term.Id(0));
        r := Ok(i);
      }
    }

    /** A block lowered before stands for what it stood for. */
    twostate predicate Shared()
      reads this
    {
      forall t | t in old(blocks) :: t in blocks && blocks[t] == old(blocks)[t]
    }

    /** What the first `ip` instructions came to. */
    ghost predicate Folded(s: SentenceIndex, ip: nat, acc: Option<TermIndex>)
      reads ctx
      requires ctx.Valid() && s < |library.sentences| && ip <= |library.sentences[s]|
    {
      && (acc.Some? ==> ctx.Has(acc.value) && ctx.At(acc.value).Ok())
      && (acc.Some? <==> ip > 0)
      && (Covered(library, claim, s) ==> Prefix(acc) == LowerPrefix(library, claim, s, ip))
    }

    method Fold(s: SentenceIndex, ip: nat, acc: Option<TermIndex>) returns (r: Result<TermIndex, Error>)
      requires Valid() && s < |library.sentences| && ip < |library.sentences[s]| && Folded(s, ip, acc)
      modifies this, ctx
      ensures Valid() && ctx.Grew() && Shared()
      ensures r.Ok? ==> Folded(s, ip + 1, Some(r.value))
      ensures Covered(library, claim, s) ==> r.Ok?
      decreases ranks[s], 1, 1
    {
      hide Covered; hide LowerInst; hide Tree.Ok; hide Tree.Effect; hide Composed; hide Acyclic; hide LowerTarget;
      hide Library.Closed; hide Stands; hide LowerSentence;
      r := Instruction(s, ip);
      if r.Ok? && acc.Some? {
        ComposedEffect(ctx.At(acc.value), ctx.At(r.value));
        var i := ctx.PadCompose(acc.value, r.value);
        r := Ok(i);
      }
    }

    ghost function Prefix(acc: Option<TermIndex>): Option<Tree>
      reads ctx
      requires ctx.Valid() && (acc.Some? ==> ctx.Has(acc.value))
    {
      match acc
      case None => None
      case Some(i) => Some(ctx.At(i))
    }

    method Instruction(s: SentenceIndex, ip: nat) returns (r: Result<TermIndex, Error>)
      requires Valid() && s < |library.sentences| && ip < |library.sentences[s]|
      modifies this, ctx
      ensures Valid() && ctx.Grew() && Shared()
      ensures r.Ok? ==> ctx.Has(r.value) && ctx.At(r.value).Ok()
      ensures Covered(library, claim, s) ==> r.Ok? && ctx.At(r.value) == LowerInst(library, claim, s, ip)
      decreases ranks[s], 1, 0
    {
      hide Certifies; hide LowerSentence; hide Tree.Effect; hide Tree.Ok; hide Branched;
      hide LowerTarget; hide Acyclic; hide Library.Closed; hide Stands; hide CombineBranch; hide LowerBranch;
      hide InstEffect; hide TreeAt; hide Ordered;
      LeavesOk();
      Descends(s, ip);
      match library.sentences[s][ip] {
        case Jump(t) =>
          r := Target(t);
        case Dip(t) =>
          r := Frame(t);
        case Branch(t, f) =>
          r := Arms(t, f);
        case Drop =>
          var i := ctx.Push(Term.Drop(1));
          r := Ok(i);
        case Copy =>
          var i := ctx.Push(Term.Copy(1));
          r := Ok(i);
        case Local(prim) =>
          var i := ctx.Push(Term.Op(prim));
          r := Ok(i);
      }
    }

    /** A called sentence beside the one value it does not see. */
    method Frame(t: SentenceIndex) returns (r: Result<TermIndex, Error>)
      requires Valid() && t < |library.sentences|
      modifies this, ctx
      ensures Valid() && ctx.Grew() && Shared()
      ensures r.Ok? ==> ctx.Has(r.value) && ctx.At(r.value).Ok()
      ensures Covered(library, claim, t) ==>
        r.Ok? && ctx.At(r.value) == Tree.Par(LowerTarget(library, claim, t), Tree.Id(1))
      decreases ranks[t], 4
    {
      hide Certifies; hide LowerSentence; hide Tree.Effect; hide Tree.Ok; hide LowerTarget; hide Library.Closed;
      hide Stands; hide Covered; hide TreeAt; hide Ordered; hide Acyclic;
      LeavesOk();
      var body := Target(t);
      if body.Err? { return body; }
      var one := ctx.Push(Term.Id(1));
      var i := ctx.Push(Term.Par(body.value, one));
      ParShape(ctx.At(body.value), ctx.At(one));
      r := Ok(i);
    }

    /** The two arms of a branch, the shallower widened to the deeper. */
    method Arms(t: SentenceIndex, f: SentenceIndex) returns (r: Result<TermIndex, Error>)
      requires Valid() && t < |library.sentences| && f < |library.sentences|
      modifies this, ctx
      ensures Valid() && ctx.Grew() && Shared()
      ensures r.Ok? ==> ctx.Has(r.value) && ctx.At(r.value).Ok()
      ensures Forks(t, f) ==>
        r.Ok? && var arm := CombineBranch(claim.arities[t], claim.arities[f]).value;
          ctx.At(r.value) == LowerBranch(LowerTarget(library, claim, t), LowerTarget(library, claim, f), arm)
      decreases if ranks[t] < ranks[f] then ranks[f] else ranks[t], 4
    {
      hide Certifies; hide LowerSentence; hide Tree.Effect; hide Tree.Ok; hide Branched; hide Stands; hide LowerTarget;
      hide TreeAt; hide Ordered; hide CombineBranch; hide LowerBranch; hide Library.Closed; hide Covered;
      var yes := Target(t);
      if yes.Err? { return yes; }
      var no := Target(f);
      if no.Err? { return no; }
      BranchedOk(ctx.At(yes.value), ctx.At(no.value));
      if Forks(t, f) {
        ArmsFork(t, f, ctx.At(yes.value), ctx.At(no.value));
      }
      r := ctx.PadBranch(yes.value, no.value);
    }

    lemma ArmsFork(t: SentenceIndex, f: SentenceIndex, yes: Tree, no: Tree)
      requires Valid() && t < |library.sentences| && f < |library.sentences| && Forks(t, f)
      requires yes == LowerTarget(library, claim, t) && no == LowerTarget(library, claim, f) && yes.Ok() && no.Ok()
      ensures Branched(yes, no)
        == Ok(LowerBranch(yes, no, CombineBranch(claim.arities[t], claim.arities[f]).value))
    {
      hide LowerSentence; hide Tree.Effect; hide Tree.Ok; hide Branched; hide Stands;
      BranchedEffect(yes, no, CombineBranch(claim.arities[t], claim.arities[f]).value);
    }

    /** The claim covers both arms, and their net changes agree. */
    ghost predicate Forks(t: SentenceIndex, f: SentenceIndex) {
      && Covered(library, claim, t) && Covered(library, claim, f)
      && CombineBranch(claim.arities[t], claim.arities[f]).Some?
    }

    lemma Descends(s: SentenceIndex, ip: nat)
      requires Valid() && s < |library.sentences| && ip < |library.sentences[s]|
      ensures forall t | t in library.sentences[s][ip].Callees() ::
        t < |library.sentences| && t in ranks && ranks[t] < ranks[s]
      ensures Covered(library, claim, s) ==>
        library.sentences[s][ip].Callees() <= claim.arities.Keys
      ensures Covered(library, claim, s) && library.sentences[s][ip].Branch? ==>
        Forks(library.sentences[s][ip].ifTrue, library.sentences[s][ip].ifFalse)
    {
      if Covered(library, claim, s) {
        InstHasEffect(library, claim, s, ip);
      }
    }

    /** The term a call to `t` becomes. A block lowered before is found in the table and not lowered again. */
    method Target(t: SentenceIndex) returns (r: Result<TermIndex, Error>)
      requires Valid() && t < |library.sentences|
      modifies this, ctx
      ensures Valid() && ctx.Grew() && Shared()
      ensures r.Ok? ==> ctx.Has(r.value) && ctx.At(r.value).Ok()
      ensures Covered(library, claim, t) ==> r.Ok? && ctx.At(r.value) == LowerTarget(library, claim, t)
      ensures Covered(library, claim, t) && library.names[t] != INLINE_BLOCK ==>
        ctx.At(r.value) == Tree.Call(t, claim.arities[t])
      ensures library.names[t] == INLINE_BLOCK && r.Ok? ==> t in blocks && blocks[t] == r.value
      ensures library.names[t] == INLINE_BLOCK && t in old(blocks) ==>
        r == Ok(old(blocks)[t]) && ctx.terms == old(ctx.terms)
      decreases ranks[t], 3
    {
      if library.names[t] != INLINE_BLOCK {
        var arity := ArityOf(t);
        if arity.Err? {
          return Err(arity.error);
        }
        var i := ctx.Push(Term.Call(t, arity.value));
        return Ok(i);
      }
      if t in blocks {
        return Ok(blocks[t]);
      }
      r := Sentence(t);
      if r.Ok? {
        blocks := blocks[t := r.value];
      }
    }

    method ArityOf(t: SentenceIndex) returns (r: Result<Arity, Error>)
      requires Valid() && t < |library.sentences|
      modifies `arities
      ensures Valid()
      ensures Covered(library, claim, t) ==> r == Ok(claim.arities[t])
    {
      if t in arities {
        return Ok(arities[t]);
      }
      var arity := SentenceArity(library, t, claim);
      if arity.None? {
        return Err(NoArity(t));
      }
      arities := arities[t := arity.value];
      r := Ok(arity.value);
    }
  }

  lemma BranchedOk(t: Tree, f: Tree)
    requires t.Ok() && f.Ok()
    ensures Branched(t, f).Ok? ==> Branched(t, f).value.Ok()
  {
    hide Tree.Effect; hide Tree.Ok;
    var n := t.Effect().inputs - f.Effect().inputs;
    if n < 0 {
      BranchShape(Widened(t, -n), f);
    } else {
      BranchShape(t, Widened(f, n));
    }
  }

  lemma LeavesOk()
    ensures forall n: nat :: Tree.Id(n).Ok() && Tree.Drop(n).Ok() && Tree.Copy(n).Ok()
    ensures forall prim: Prim :: Tree.Op(prim).Ok()
  {
  }

  /**
   * One sentence lowered on its own. For every sentence the inference accepts, the term is well formed and
   * is the one the sentence stands for, so it has exactly the inferred arity; however its calls are read, it does what
   * the sentence does, and what it leaves closed are the sentence's calls by name.
   */
  method LowerInto(
    ctx: Context, library: Library, s: SentenceIndex, ghost ranks: map<SentenceIndex, nat>, ghost claim: Certificate)
    returns (r: Result<TermIndex, Error>)
    requires ctx.Valid() && library.Closed() && s < |library.sentences| && Acyclic(library, ranks)
    modifies ctx
    ensures ctx.Grew()
    ensures r.Ok? ==> ctx.Has(r.value) && ctx.At(r.value).Ok()
    ensures Covered(library, claim, s) ==> r.Ok? && ctx.At(r.value) == LowerSentence(library, claim, s)
    ensures Covered(library, claim, s) ==> ctx.At(r.value).Effect() == claim.arities[s] && forall calls, stack ::
      |stack| >= claim.arities[s].inputs ==>
        AnsweredFrom(library, claim, calls, s, 0, stack) == Some(RunOn(ctx.At(r.value), calls, stack))
    ensures Covered(library, claim, s) ==>
      CallsOf(ctx.At(r.value)) == CalledBy(library, claim, s, |library.sentences[s]|)
  {
    hide LowerSentence; hide AnsweredFrom; hide CalledBy; hide CallsOf; hide Certifies; hide RunOn; hide Acyclic;
    hide Library.Closed; hide Tree.Ok; hide Tree.Effect;
    var lowering := new Lowerer(library, ctx, ranks, claim);
    r := lowering.Sentence(s);
    if Covered(library, claim, s) {
      SentenceCalls(library, claim, s);
      forall calls, stack: seq<Value> | |stack| >= claim.arities[s].inputs
        ensures AnsweredFrom(library, claim, calls, s, 0, stack) == Some(RunOn(ctx.At(r.value), calls, stack))
      {
        SentenceAnswered(library, claim, calls, s, stack);
      }
    }
  }
}
