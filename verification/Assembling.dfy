/** From written sentences to an accepted library, and that the machine then runs what was written. */
module Assembling {
  import opened Wrappers
  import opened Values
  import opened Prims
  import opened Terms
  import opened Libraries
  import opened Arities
  import opened Machine
  import opened Meanings
  import opened Lowering
  import opened Heights
  import opened Promises
  import opened Surface
  import opened Emitting
  import opened Expansions
  import opened Balances
  import opened Compiled
  import opened Drafts
  import opened Compiling
  import opened EarlyReturns
  import opened Settling
  import opened Accepting
  import opened Accepted

  /** A named sentence as written, its paths resolved. */
  datatype Written = Written(name: string, annotations: seq<Arity>, body: Body)

  datatype AssemblyError = Unmatched(balance: BalanceError) | Unacceptable(inference: InferenceError)

  function Bodies(program: seq<Written>): seq<Body> {
    seq(|program|, s requires 0 <= s < |program| => program[s].body)
  }

  /** The program's words, with the net changes a certificate gives its sentences. */
  ghost function Words(program: seq<Written>, c: Certificate, ok: Value, err: Value): Program
    requires forall s | 0 <= s < |program| :: s in c.arities
  {
    Program(Bodies(program), seq(|program|, s requires 0 <= s < |program| => c.arities[s].Net()), ok, err)
  }

  /** Names and annotations are nobody's business but their sentence's. */
  lemma Renamed(d: Draft, err: Value, s: nat, name: string, annotations: seq<Arity>)
    requires Fine(d, err) && s < |d.sentences|
    ensures Fine(d.(names := d.names[s := name], annotations := d.annotations[s := annotations]), err)
    ensures Emit(d.(names := d.names[s := name], annotations := d.annotations[s := annotations])) == Emit(d)
  {
    var e := d.(names := d.names[s := name], annotations := d.annotations[s := annotations]);
    forall key | key in e.reaches ensures ReachFiled(e, key.0, key.1, e.reaches[key]) {
      assert ReachFiled(d, key.0, key.1, d.reaches[key]);
    }
    forall key | key in e.frames ensures FrameFiled(e, key.0, key.1, e.frames[key]) {
      assert FrameFiled(d, key.0, key.1, d.frames[key]);
    }
    forall i | 0 <= i < |e.early| ensures ExitFiled(e, err, e.early[i]) {
      assert ExitFiled(d, err, d.early[i]);
    }
  }

  /** The first `n` named sentences are compiled, and the others still have only their room. */
  ghost predicate CompiledTo(d: Draft, program: seq<Written>, ok: Value, n: nat)
    requires n <= |program|
  {
    && d.named == |program| <= |d.names| == |d.annotations|
    && (forall s: nat | s < n :: Rendered(d, Bodies(program), ok, s))
    && |d.early| == Count(Bodies(program), n)
    && (forall s: nat, k: nat | s < n && k < |TailsOf(program[s].body)| :: TailCompiled(d, program, ok, s, k))
    && (forall s | n <= s < |program| :: s !in d.code)
    && (forall s | 0 <= s < n :: d.names[s] == program[s].name && d.annotations[s] == program[s].annotations)
  }

  /** The early return for the `k`th `?` of a named sentence, where it belongs. */
  ghost predicate TailCompiled(d: Draft, program: seq<Written>, ok: Value, s: nat, k: nat)
    requires s < |program| && k < |TailsOf(program[s].body)|
  {
    TailFiled(d, ok, Count(Bodies(program), s) + k, TailsOf(program[s].body)[k], program[s].name)
  }

  lemma RenderedStays(d: Draft, e: Draft, bodies: seq<Body>, ok: Value, s: nat)
    requires Wrote(d, e) && s < |bodies| && Rendered(d, bodies, ok, s)
    ensures Rendered(e, bodies, ok, s)
  {
    hide Renders;
    var lo, hi := Count(bodies, s), Count(bodies, s + 1);
    assert d.early[lo..hi] == e.early[lo..hi];
    RendersStays(Emit(Span(d, lo, hi)), Emit(Span(e, lo, hi)), ok, bodies[s], d.code[s]);
  }

  lemma CompiledStays(d: Draft, e: Draft, program: seq<Written>, ok: Value, n: nat)
    requires n <= |program| && CompiledTo(d, program, ok, n) && Wrote(d, e)
    ensures forall s: nat | s < n :: Rendered(e, Bodies(program), ok, s)
    ensures forall s: nat, k: nat | s < n && k < |TailsOf(program[s].body)| :: TailCompiled(e, program, ok, s, k)
  {
    hide Rendered; hide TailFiled; hide Wrote;
    forall s: nat | s < n ensures Rendered(e, Bodies(program), ok, s) {
      RenderedStays(d, e, Bodies(program), ok, s);
    }
    forall s: nat, k: nat | s < n && k < |TailsOf(program[s].body)| ensures TailCompiled(e, program, ok, s, k) {
      assert TailCompiled(d, program, ok, s, k);
      TailFiledStays(d, e, ok, Count(Bodies(program), s) + k, TailsOf(program[s].body)[k], program[s].name);
    }
  }

  /** A draft with all of a program compiled has its early returns where the words have them. */
  lemma CompiledIsTimely(d: Draft, program: seq<Written>, ok: Value)
    requires CompiledTo(d, program, ok, |program|)
    ensures Timely(d, Bodies(program), ok)
  {
    hide Rendered; hide Renders; hide TailsOf;
    var bodies := Bodies(program);
    forall i: nat | i < |d.early|
      ensures TailFiled(d, ok, i, AllTails(bodies, |bodies|)[i], d.early[i].inSentence)
    {
      var s, k := OwnerOf(bodies, |bodies|, i);
      TailAt(bodies, s, k);
      assert TailCompiled(d, program, ok, s, k);
    }
  }

  /** One more named sentence compiled: what it renders, and the early returns recorded on the way. */
  ghost predicate NextRendered(
    d: Draft, before: nat, program: seq<Written>, ok: Value, n: nat, insts: Libraries.Sentence)
    requires n < |program|
  {
    && before == Count(Bodies(program), n) <= |d.early|
    && Renders(Emit(Since(d, before)), ok, program[n].body, insts)
    && TailsFiled(d, ok, before, TailsOf(program[n].body), program[n].name)
  }

  lemma OneMoreCompiled(
    a: Draft, d: Draft, err: Value, program: seq<Written>, ok: Value, n: nat, insts: Libraries.Sentence)
    returns (e: Draft)
    requires n < |program| && CompiledTo(a, program, ok, n) && Grown(a, d) && Fine(d, err) && |program| <= |a.sentences|
    requires NextRendered(d, |a.early|, program, ok, n, insts) && ProperCode(insts, |d.sentences|, d.early)
    ensures |program| <= |d.sentences| && e == Filled(d, n, insts).(names := d.names[n := program[n].name],
      annotations := d.annotations[n := program[n].annotations])
    ensures Fine(e, err) && CompiledTo(e, program, ok, n + 1) && n !in d.code
  {
    SameLengths(d, err);
    e := Filled(d, n, insts).(names := d.names[n := program[n].name], annotations :=
      d.annotations[n := program[n].annotations]);
    assert n !in d.code;
    SettledIsCallable(d, err, n);
    hide Fine; hide ProperCode; hide Callable; hide NextRendered; hide CompiledTo;
    FilledIsFine(d, err, n, insts);
    Renamed(Filled(d, n, insts), err, n, program[n].name, program[n].annotations);
    StillCompiled(a, d, e, program, ok, n, insts);
  }

  lemma StillCompiled(
    a: Draft, d: Draft, e: Draft, program: seq<Written>, ok: Value, n: nat, insts: Libraries.Sentence)
    requires n < |program| && CompiledTo(a, program, ok, n) && Grown(a, d)
    requires NextRendered(d, |a.early|, program, ok, n, insts)
    requires |program| <= |d.names| == |d.annotations| && |program| <= |a.sentences| && n !in d.code
    requires e.named == d.named && e.code == d.code[n := insts] && e.early == d.early
    requires e.names == d.names[n := program[n].name] && e.annotations == d.annotations[n := program[n].annotations]
    ensures CompiledTo(e, program, ok, n + 1)
  {
    hide Rendered; hide TailFiled; hide Renders;
    GrownWrote(a, d);
    assert Wrote(d, e) && Wrote(a, e);
    CompiledStays(a, e, program, ok, n);
    NowRendered(d, e, |a.early|, program, ok, n, insts);
    forall s | n + 1 <= s < |program| ensures s !in e.code {
      assert s !in a.code;
    }
  }

  lemma NowRendered(
    d: Draft, e: Draft, before: nat, program: seq<Written>, ok: Value, n: nat, insts: Libraries.Sentence)
    requires n < |program| && NextRendered(d, before, program, ok, n, insts) && Wrote(d, e) && n !in d.code
    requires e.named == d.named && e.code == d.code[n := insts] && e.early == d.early
    ensures |e.early| == Count(Bodies(program), n + 1) && Rendered(e, Bodies(program), ok, n)
    ensures forall k: nat | k < |TailsOf(program[n].body)| :: TailCompiled(e, program, ok, n, k)
  {
    hide TailFiled; hide Renders;
    var bodies := Bodies(program);
    assert AllTails(bodies, n + 1) == AllTails(bodies, n) + TailsOf(bodies[n]);
    SinceWithin(d, e, before);
    RendersStays(Emit(Since(d, before)), Emit(Since(e, before)), ok, program[n].body, insts);
    assert e.early[before..] == e.early[before..|e.early|];
    TailsFiledStay(d, e, ok, before, TailsOf(program[n].body), program[n].name);
  }

  // ---- programs every way through which leaves one height ----

  predicate AllLevel(nets: seq<int>, program: seq<Written>) {
    forall s | 0 <= s < |program| :: Level(nets, program[s].body)
  }

  lemma ExplainedStays(nets: seq<int>, ok: Value, d: Draft, e: Draft)
    requires Explained(nets, ok, d) && CodeSettled(d) && Grown(d, e) && Adds(nets, ok, d, e)
    ensures Explained(nets, ok, e)
  {
    hide Piece;
    GrownWithin(d, e);
    forall t: nat | e.named <= t < |e.sentences| ensures Accounted(nets, ok, e, t) {
      if t < |d.sentences| {
        assert Accounted(nets, ok, d, t);
        if t in d.code {
          PieceStays(nets, ok, d, e, d.code[t]);
        } else if t !in e.code {
          FailStays(d, e, t);
        }
      }
    }
  }

  lemma FailStays(d: Draft, e: Draft, t: SentenceIndex)
    requires d.early <= e.early && IsFail(d, t)
    ensures IsFail(e, t)
  {
    var i: nat :| i < |d.early| && d.early[i].fail == t;
    assert e.early[i] == d.early[i];
  }

  lemma ExplainedNamed(nets: seq<int>, ok: Value, d: Draft, e: Draft, n: nat)
    requires Explained(nets, ok, d) && n < d.named == e.named && n !in d.code && Emit(d).Within(Emit(e))
    requires e.early == d.early && |e.sentences| == |d.sentences| == |e.annotations| && e.code.Keys == d.code.Keys + {n}
    requires forall t | d.named <= t < |d.sentences| :: e.annotations[t] == d.annotations[t]
    ensures Explained(nets, ok, e)
  {
    hide Piece;
    forall t: nat | e.named <= t < |e.sentences| ensures Accounted(nets, ok, e, t) {
      assert Accounted(nets, ok, d, t);
      if t in d.code {
        assert t in Emit(d).code && e.code[t] == d.code[t];
        PieceStays(nets, ok, d, e, d.code[t]);
      } else {
        FailStays(d, e, t);
      }
    }
  }

  /** Every named sentence compiled into the room kept for it, blocks after them. */
  method CompileAll(program: seq<Written>, ok: Value, err: Value, ghost nets: seq<int>) returns (compiler: Compiler)
    requires forall s | 0 <= s < |program| :: Labelled(program[s].body, |program|)
    ensures fresh(compiler) && compiler.Valid() && compiler.err == err
    ensures CompiledTo(compiler.View(), program, ok, |program|)
    ensures AllLevel(nets, program) ==> Explained(nets, ok, compiler.View())
  {
    hide Fine; hide Renders; hide Grown; hide Piece; hide Level;
    compiler := new Compiler(|program|, ok, err, nets);
    assert CompiledTo(compiler.View(), program, ok, 0);
    for s := 0 to |program|
      invariant compiler.Valid() && compiler.ok == ok && compiler.err == err && compiler.named == |program|
      invariant |program| <= |compiler.sentences| && CompiledTo(compiler.View(), program, ok, s)
      invariant compiler.nets == nets && (AllLevel(nets, program) ==> Explained(nets, ok, compiler.View()))
    {
      CompileNext(program, compiler, s);
    }
  }

  method CompileNext(program: seq<Written>, compiler: Compiler, s: nat)
    requires s < |program| <= |compiler.sentences| && Labelled(program[s].body, |program|)
    requires compiler.Valid() && compiler.named == |program| && CompiledTo(compiler.View(), program, compiler.ok, s)
    modifies compiler
    ensures compiler.Valid() && |program| <= |compiler.sentences|
    ensures CompiledTo(compiler.View(), program, compiler.ok, s + 1)
    ensures AllLevel(compiler.nets, program) && old(Explained(compiler.nets, compiler.ok, compiler.View())) ==>
      Explained(compiler.nets, compiler.ok, compiler.View())
  {
    hide Explained; hide Adds; hide Level;
    ghost var before := compiler.View();
    compiler.currentSentence := program[s].name;
    var insts := compiler.CompileBody(program[s].body);
    ghost var after := compiler.View();
    ghost var e := OneMoreCompiled(before, after, compiler.err, program, compiler.ok, s, insts);
    compiler.sentences := compiler.sentences[s := insts];
    compiler.code := compiler.code[s := insts];
    compiler.names := compiler.names[s := program[s].name];
    compiler.annotations := compiler.annotations[s := program[s].annotations];
    assert compiler.View() == e;
    if AllLevel(compiler.nets, program) && Explained(compiler.nets, compiler.ok, before) {
      ExplainedStays(compiler.nets, compiler.ok, before, after);
      ExplainedNext(compiler.nets, compiler.ok, after, program, s, insts);
    }
  }

  lemma ExplainedNext(nets: seq<int>, ok: Value, d: Draft, program: seq<Written>, n: nat, insts: Libraries.Sentence)
    requires Explained(nets, ok, d) && n < |program| == d.named <= |d.sentences| && n !in d.code
    requires n < |d.names| && n < |d.annotations|
    ensures Explained(nets, ok, Filled(d, n, insts).(names := d.names[n := program[n].name], annotations :=
      d.annotations[n := program[n].annotations]))
  {
    hide Piece;
    var e := Filled(d, n, insts).(names := d.names[n := program[n].name], annotations :=
      d.annotations[n := program[n].annotations]);
    assert Emit(d).Within(Emit(e));
    ExplainedNamed(nets, ok, d, e, n);
  }

  lemma SameLengths(d: Draft, err: Value)
    requires Fine(d, err)
    ensures |d.names| == |d.annotations| == |d.sentences|
  {
  }

  /** A finished draft, as a library whose early returns still wait for their drops. */
  lemma ReadyToBalance(d: Draft, err: Value)
    requires Fine(d, err)
    ensures Stage(Library(d.sentences, d.names, d.annotations), err, d.early, 0)
  {
    var lib := Library(d.sentences, d.names, d.annotations);
    ProperIsClosed(lib, d.early);
    forall i | 0 <= i < |d.early|
      ensures ExitFiled(d, err, d.early[i]) && lib.sentences[d.early[i].fail] == FailStart(err)
      ensures Salvaging(lib, err, d.early[i].fail)
    {
      assert ExitFiled(d, err, d.early[i]);
      assert FailCode(err, 0, 0) == FailStart(err);
      assert Salvages(lib, err, d.early[i].fail, 0, 0);
    }
  }

  lemma StageIsClosed(lib: Library, err: Value, sites: seq<EarlyReturn>, i: nat)
    requires Stage(lib, err, sites, i)
    ensures lib.Closed()
  {
  }

  lemma CompiledRenders(d: Draft, program: seq<Written>, ok: Value)
    requires CompiledTo(d, program, ok, |program|)
    ensures forall s: nat | s < |program| :: s in d.code && Renders(Emit(d), ok, program[s].body, d.code[s])
  {
    hide Renders; hide TailCompiled;
    forall s: nat | s < |program| ensures s in d.code && Renders(Emit(d), ok, program[s].body, d.code[s]) {
      var lo, hi := RenderedAt(d, Bodies(program), ok, s);
      SpanWithin(d, lo, hi);
      RendersStays(Emit(Span(d, lo, hi)), Emit(d), ok, program[s].body, d.code[s]);
    }
  }

  /** What was compiled, balanced and accepted is the program in place. */
  lemma NowInstalled(
    d: Draft, program: seq<Written>, ok: Value, err: Value, balanced: Library, c: Certificate)
    requires Fine(d, err) && CompiledTo(d, program, ok, |program|)
    requires Stage(balanced, err, d.early, |d.early|)
    requires Kept(Library(d.sentences, d.names, d.annotations), balanced, d.early)
    requires Accepts(balanced, c)
    ensures (forall s | 0 <= s < |program| :: s in c.arities)
    ensures Installed(balanced, c, Words(program, c, ok, err), Emit(d))
  {
    hide Renders; hide Certifies; hide AllProper; hide Fine; hide Kept; hide Stage; hide TailCompiled;
    CompiledRenders(d, program, ok);
    CodeKept(d, err, balanced);
    ExitsSalvaged(d, err, balanced);
    AllKept(d, err, program, ok, balanced);
    var p := Words(program, c, ok, err);
    forall s | 0 <= s < |p.bodies| ensures Named(balanced, c, p, Emit(d), s) {
    }
  }

  lemma CodeKept(d: Draft, err: Value, balanced: Library)
    requires Fine(d, err) && Kept(Library(d.sentences, d.names, d.annotations), balanced, d.early)
    ensures forall t | t in d.code :: t < |balanced.sentences| && balanced.sentences[t] == d.code[t]
  {
    forall t | t in d.code ensures t < |balanced.sentences| && balanced.sentences[t] == d.code[t] {
      SettledIsCallable(d, err, t);
      forall i | 0 <= i < |d.early| ensures t != d.early[i].fail {
        assert d.early[i] in d.early;
      }
    }
  }

  lemma AllKept(d: Draft, err: Value, program: seq<Written>, ok: Value, balanced: Library)
    requires Fine(d, err) && CompiledTo(d, program, ok, |program|)
    requires Kept(Library(d.sentences, d.names, d.annotations), balanced, d.early)
    ensures |program| <= |d.sentences| <= |balanced.sentences|
  {
  }

  lemma ExitsSalvaged(d: Draft, err: Value, balanced: Library)
    requires Stage(balanced, err, d.early, |d.early|)
    ensures balanced.Closed() && forall x | x in Emit(d).exits :: Salvaging(balanced, err, x.1)
  {
    forall x | x in Emit(d).exits ensures Salvaging(balanced, err, x.1) {
      var y: EarlyReturn :| y in d.early && (y.rest, y.fail) == x;
      var i :| 0 <= i < |d.early| && d.early[i] == y;
    }
  }

  /** Each named sentence of the library does, on every stack, what its written body means. */
  ghost predicate RunsAsWritten(program: seq<Written>, ok: Value, err: Value, lib: Library, c: Certificate) {
    && lib.Closed() && Accepts(lib, c) && |program| <= |lib.sentences|
    && forall s, stack: seq<Value>, fuel: nat | 0 <= s < |program| && fuel > c.ranks[s] ::
      Means(Words(program, c, ok, err), program[s].body, stack, fuel) == Of(RunFrom(lib, c, s, 0, stack))
  }

  lemma InstalledRunsAsWritten(
    d: Draft, program: seq<Written>, ok: Value, err: Value, lib: Library, c: Certificate)
    requires lib.Closed() && Accepts(lib, c) && (forall s | 0 <= s < |program| :: s in c.arities)
    requires Installed(lib, c, Words(program, c, ok, err), Emit(d)) && |program| <= |lib.sentences|
    ensures RunsAsWritten(program, ok, err, lib, c)
  {
    hide Installed; hide Means; hide RunFrom; hide Certifies;
    InRanks(lib, c);
    var p := Words(program, c, ok, err);
    forall s, stack: seq<Value>, fuel: nat | 0 <= s < |program| && fuel > c.ranks[s]
      ensures Means(p, program[s].body, stack, fuel) == Of(RunFrom(lib, c, s, 0, stack))
    {
      NamedMeans(lib, c, p, Emit(d), s, stack, fuel);
    }
  }

  lemma InRanks(lib: Library, c: Certificate)
    requires lib.Closed() && Accepts(lib, c)
    ensures c.arities.Keys == c.ranks.Keys
  {
  }

  /** Some nets, some order of calls and some marks settle its bodies. */
  ghost predicate Settled(program: seq<Written>) {
    exists nets, rank, top :: Settles(Bodies(program), nets, rank, top)
  }

  predicate Unannotated(program: seq<Written>) {
    forall s | 0 <= s < |program| :: program[s].annotations == []
  }

  ghost predicate CoversAll(lib: Library, e: Certificate) {
    Certifies(lib, e) && forall s | 0 <= s < |lib.sentences| :: s in e.arities
  }

  /** The stack effects of a library, which it has, meet what is declared of its named sentences. */
  ghost predicate MeetsAnnotations(program: seq<Written>, lib: Library, e: Certificate)
    requires lib.Closed() && CoversAll(lib, e) && |program| <= |lib.sentences|
  {
    forall s: nat | s < |program| :: Declared(lib, s, e.arities[s])
  }

  // ---- a program that settles ----

  lemma CodeInPlace(d: Draft, program: seq<Written>, ok: Value, err: Value, p: Program, lib: Library)
    requires Fine(d, err) && CompiledTo(d, program, ok, |program|) && lib.Closed()
    requires Kept(Library(d.sentences, d.names, d.annotations), lib, d.early)
    requires p.bodies == Bodies(program) && |p.nets| == |p.bodies| && p.ok == ok
    requires forall s: nat | s < |p.bodies| :: NetOf(p.nets, p.bodies[s]) == p.nets[s]
    ensures Placed(lib, p, Emit(d))
  {
    hide Renders; hide NetOf; hide Fine; hide Kept; hide TailCompiled; hide Library.Closed;
    CodeKept(d, err, lib);
    CompiledRenders(d, program, ok);
  }

  lemma AtStart(x: Scene, program: seq<Written>)
    requires x.lib == Library(x.d.sentences, x.d.names, x.d.annotations) && x.i == 0
    requires Fine(x.d, x.p.err) && CompiledTo(x.d, program, x.p.ok, |program|) && x.p.bodies == Bodies(program)
    requires Settles(x.p.bodies, x.p.nets, x.rank, x.top)
    ensures Turned(x) && Padded(x.d, x.lib)
  {
    SameLengths(x.d, x.p.err);
    ReadyToBalance(x.d, x.p.err);
    StageIsClosed(x.lib, x.p.err, x.d.early, 0);
    KeptItself(x.lib, x.d.early);
    CompiledIsTimely(x.d, program, x.p.ok);
    hide Renders; hide NetOf; hide Kept; hide TailCompiled; hide Library.Closed; hide Level; hide CallsBelow;
    hide TailSettles; hide AllProper; hide FramesFiled; hide ReachesFiled;
    forall s: nat | s < |x.p.bodies| ensures NetOf(x.p.nets, x.p.bodies[s]) == x.p.nets[s] {
      assert SettlesAt(x.p.bodies[s], s, x.p.nets, x.rank, x.top);
    }
    CodeInPlace(x.d, program, x.p.ok, x.p.err, x.p, x.lib);
    forall j: nat | j < |x.d.early| ensures HasDrops(x, j) {
      assert ExitFiled(x.d, x.p.err, x.d.early[j]);
      assert FailCode(x.p.err, 0, 0) == FailStart(x.p.err);
      assert Salvages(x.lib, x.p.err, x.d.early[j].fail, 0, 0);
    }
  }

  /** What this program compiles to, and that library as one early return after another is finished. */
  ghost predicate Built(program: seq<Written>, ok: Value, err: Value, d: Draft, stages: seq<Library>) {
    && Fine(d, err) && CompiledTo(d, program, ok, |program|)
    && InStages(Library(d.sentences, d.names, d.annotations), err, d.early, stages)
  }

  lemma NowCovers(lib: Library, e: Certificate)
    requires Certifies(lib, e) && forall s | 0 <= s < |lib.sentences| :: s in e.arities
    ensures CoversAll(lib, e)
  {
  }

  lemma BuiltParts(program: seq<Written>, ok: Value, err: Value, d: Draft, stages: seq<Library>)
    requires Built(program, ok, err, d, stages)
    ensures Fine(d, err) && CompiledTo(d, program, ok, |program|) && 0 < |stages| <= |d.early| + 1
    ensures stages[0] == Library(d.sentences, d.names, d.annotations)
    ensures forall i: nat | i < |stages| :: stages[i].Closed() && Stage(stages[i], err, d.early, i)
    ensures forall i: nat | i < |stages| :: Kept(stages[0], stages[i], d.early)
    ensures forall i: nat | i < |stages| - 1 :: Turn(stages[i], stages[i + 1], d.early[i])
  {
    hide Fine; hide CompiledTo; hide Stage; hide Kept; hide Turn; hide Library.Closed; hide Agree; hide Reckons;
    forall i: nat | i < |stages| ensures stages[i].Closed() {
      StageIsClosed(stages[i], err, d.early, i);
    }
  }

  /** Of a program that settles no early return is refused at its turn, and after the last there are stack effects. */
  lemma SettledIsCovered(
    program: seq<Written>, nets: seq<int>, rank: seq<nat>, top: seq<nat>, ok: Value, err: Value, d: Draft,
    stages: seq<Library>)
    requires Settles(Bodies(program), nets, rank, top) && Built(program, ok, err, d, stages) && Explained(nets, ok, d)
    ensures |stages| <= |d.early| ==> NeverMore(stages[|stages| - 1], d.early[|stages| - 1])
    ensures |stages| == |d.early| + 1 ==> exists e: Certificate :: CoversAll(stages[|d.early|], e)
    ensures |stages| == |d.early| + 1 ==> Padded(d, stages[|d.early|])
  {
    hide *;
    BuiltParts(program, ok, err, d, stages);
    var k := |stages| - 1;
    var x := Scene(stages[0], d, Program(Bodies(program), nets, ok, err), rank, top, 0);
    AtStart(x, program);
    AtStage(x, stages, k);
    var y := x.(lib := stages[k], i := k);
    if k < |d.early| {
      NeverLeavesMore(y);
    } else {
      NowOver(y);
      var e := CoverAll(y, |y.lib.sentences|);
      NowCovers(y.lib, e);
    }
  }

  // ---- a program that is accepted ----

  lemma NetsAreWritten(lib: Library, c: Certificate, p: Program, e: Emitted)
    requires Installed(lib, c, p, e)
    ensures |p.nets| == |p.bodies| && forall s: nat | s < |p.bodies| :: NetOf(p.nets, p.bodies[s]) == p.nets[s]
  {
    InstalledParts(lib, c, p, e);
    hide Installed; hide Renders; hide NetAt; hide Certifies; hide NetOf; hide Library.Closed;
    forall s: nat | s < |p.bodies| ensures NetOf(p.nets, p.bodies[s]) == p.nets[s] {
      assert Named(lib, c, p, e, s);
      InRange(lib, c, s);
      assert lib.sentences[s][0..] == e.code[s];
      BodyNet(lib, c, p, e, c.ranks[s], s, 0, p.bodies[s]);
      NetGrows(lib, c, s, 0);
    }
  }

  lemma WordsParts(program: seq<Written>, c: Certificate, ok: Value, err: Value)
    requires forall s: nat | s < |program| :: s in c.arities
    ensures var p := Words(program, c, ok, err);
      p.bodies == Bodies(program) && |p.bodies| == |p.nets| == |program| && p.ok == ok && p.err == err
  {
  }

  lemma NowStaged(d: Draft, p: Program, stages: seq<Library>)
    requires Fine(d, p.err) && Timely(d, p.bodies, p.ok) && |stages| == |d.early| + 1
    requires forall k: nat | k < |stages| :: Stage(stages[k], p.err, d.early, k)
    requires forall k: nat | k < |stages| :: Placed(stages[k], p, Emit(d))
    requires forall k: nat | k < |stages| - 1 :: Turn(stages[k], stages[k + 1], d.early[k])
    ensures Staged(d, p, stages)
  {
    hide Fine; hide Timely; hide Stage; hide Placed; hide Turn;
  }

  lemma AllSalvaged(d: Draft, err: Value, lib: Library)
    requires Stage(lib, err, d.early, |d.early|)
    ensures forall j: nat | j < |d.early| :: Salvaging(lib, err, d.early[j].fail)
  {
    hide Salvaging;
  }

  lemma RanksIn(lib: Library, c: Certificate, n: nat) returns (rank: seq<nat>)
    requires Certifies(lib, c) && forall s: nat | s < n :: s in c.arities
    ensures |rank| == n && RanksOf(c, rank)
  {
    rank := seq(n, (s: nat) requires s < n && s in c.ranks => c.ranks[s]);
  }

  lemma NowSettled(program: seq<Written>, nets: seq<int>, rank: seq<nat>, top: seq<nat>)
    requires Settles(Bodies(program), nets, rank, top)
    ensures Settled(program)
  {
    hide Settles;
  }

  /** What came out accepted settles. */
  lemma InstalledSettles(
    program: seq<Written>, ok: Value, err: Value, c: Certificate, d: Draft, stages: seq<Library>)
    requires Built(program, ok, err, d, stages) && |stages| == |d.early| + 1 && Certifies(stages[|d.early|], c)
    requires forall s: nat | s < |program| :: s in c.arities
    requires Installed(stages[|d.early|], c, Words(program, c, ok, err), Emit(d))
    ensures Settled(program)
  {
    hide *;
    var p, lib := Words(program, c, ok, err), stages[|d.early|];
    WordsParts(program, c, ok, err);
    BuiltParts(program, ok, err, d, stages);
    NetsAreWritten(lib, c, p, Emit(d));
    CompiledIsTimely(d, program, ok);
    forall k: nat | k < |stages| ensures Placed(stages[k], p, Emit(d)) {
      CodeInPlace(d, program, ok, err, p, stages[k]);
    }
    NowStaged(d, p, stages);
    AllSalvaged(d, err, stages[|d.early|]);
    var rank := RanksIn(lib, c, |program|);
    var top := AcceptedSettles(Scene(lib, d, p, rank, [], |d.early|), c, stages);
    NowSettled(program, p.nets, rank, top);
  }

  // ---- assembling a program ----

  /** Nets, an order and marks that settle the program, if any do, and with them every block is accounted for. */
  ghost predicate Claimed(program: seq<Written>, nets: seq<int>, rank: seq<nat>, top: seq<nat>, ok: Value, d: Draft) {
    Settled(program) ==> Settles(Bodies(program), nets, rank, top) && Explained(nets, ok, d)
  }

  /** Every early return is finished, the library has stack effects, and acceptance hangs on what is declared. */
  ghost predicate AnnotationsDecide(program: seq<Written>, accepted: bool, d: Draft, stages: seq<Library>) {
    && |stages| == |d.early| + 1 && stages[|d.early|].Closed() && |program| <= |stages[|d.early|].sentences|
    && (exists e: Certificate :: CoversAll(stages[|d.early|], e))
    && forall e: Certificate | CoversAll(stages[|d.early|], e) ::
      accepted <==> MeetsAnnotations(program, stages[|d.early|], e)
  }

  /** Refused at the turn of an early return. */
  ghost predicate Exceeds(d: Draft, stages: seq<Library>, error: BalanceError) {
    0 < |stages| <= |d.early| && LeavesMore(stages[|stages| - 1], d.early[|stages| - 1], error)
  }

  /** Refused with every early return finished. */
  ghost predicate Uncertified(d: Draft, stages: seq<Library>) {
    && |stages| == |d.early| + 1 && stages[|d.early|].Closed()
    && forall e: Certificate :: !Accepts(stages[|d.early|], e)
  }

  lemma CompilerView(compiler: Compiler)
    requires compiler.Valid()
    ensures Fine(compiler.View(), compiler.err) && compiler.View().early == compiler.earlyReturns
    ensures Library(compiler.View().sentences, compiler.View().names, compiler.View().annotations)
      == Library(compiler.sentences, compiler.names, compiler.annotations)
  {
    hide Fine;
  }

  lemma NowBuilt(program: seq<Written>, ok: Value, err: Value, d: Draft, stages: seq<Library>)
    requires Fine(d, err) && CompiledTo(d, program, ok, |program|)
    requires InStages(Library(d.sentences, d.names, d.annotations), err, d.early, stages)
    ensures Built(program, ok, err, d, stages) && 0 < |stages| <= |d.early| + 1
  {
    hide Fine; hide CompiledTo; hide Stage; hide Kept; hide Turn; hide Agree; hide Reckons;
  }

  lemma NowClaimed(program: seq<Written>, nets: seq<int>, rank: seq<nat>, top: seq<nat>, ok: Value, d: Draft)
    requires Settled(program) ==> Settles(Bodies(program), nets, rank, top) && AllLevel(nets, program)
    requires AllLevel(nets, program) ==> Explained(nets, ok, d)
    ensures Claimed(program, nets, rank, top, ok, d)
  {
    hide Settled; hide Settles; hide Explained;
  }

  lemma NowExceeds(d: Draft, stages: seq<Library>, error: BalanceError)
    requires 0 < |stages| <= |d.early| && LeavesMore(stages[|stages| - 1], d.early[|stages| - 1], error)
    ensures Exceeds(d, stages, error)
  {
  }

  lemma NowUncertified(d: Draft, stages: seq<Library>)
    requires |stages| == |d.early| + 1 && stages[|d.early|].Closed()
    requires forall e: Certificate :: !Accepts(stages[|d.early|], e)
    ensures Uncertified(d, stages)
  {
    hide Accepts;
  }

  /** Only what does not settle is refused at the turn of an early return. */
  lemma RefusedAtTurn(
    program: seq<Written>, ok: Value, err: Value, nets: seq<int>, rank: seq<nat>, top: seq<nat>, d: Draft,
    stages: seq<Library>, error: BalanceError)
    requires Built(program, ok, err, d, stages) && Claimed(program, nets, rank, top, ok, d) && Exceeds(d, stages, error)
    ensures !Settled(program)
  {
    hide Built; hide Settles; hide Explained; hide LeavesMore; hide Settled;
    if Settled(program) {
      SettledIsCovered(program, nets, rank, top, ok, err, d, stages);
    }
  }

  lemma ClaimedParts(program: seq<Written>, nets: seq<int>, rank: seq<nat>, top: seq<nat>, ok: Value, d: Draft)
    requires Claimed(program, nets, rank, top, ok, d) && Settled(program)
    ensures Settles(Bodies(program), nets, rank, top) && Explained(nets, ok, d)
  {
  }

  lemma UncertifiedParts(d: Draft, stages: seq<Library>)
    requires Uncertified(d, stages)
    ensures |stages| == |d.early| + 1 && stages[|d.early|].Closed()
    ensures forall e: Certificate :: !Accepts(stages[|d.early|], e)
  {
    hide Accepts;
  }

  lemma NowDecided(program: seq<Written>, accepted: bool, d: Draft, stages: seq<Library>)
    requires |stages| == |d.early| + 1 && stages[|d.early|].Closed() && |program| <= |stages[|d.early|].sentences|
    requires exists e: Certificate :: CoversAll(stages[|d.early|], e)
    requires forall e: Certificate | CoversAll(stages[|d.early|], e) ::
      accepted <==> MeetsAnnotations(program, stages[|d.early|], e)
    ensures AnnotationsDecide(program, accepted, d, stages)
  {
    hide CoversAll; hide MeetsAnnotations;
  }

  /** The named sentences are in every stage, where they were compiled. */
  lemma ProgramFits(program: seq<Written>, ok: Value, err: Value, d: Draft, stages: seq<Library>)
    requires Built(program, ok, err, d, stages) && |stages| == |d.early| + 1
    ensures |program| <= |d.sentences| <= |stages[|d.early|].sentences|
    ensures Kept(Library(d.sentences, d.names, d.annotations), stages[|d.early|], d.early)
    ensures Fine(d, err) && CompiledTo(d, program, ok, |program|)
  {
    BuiltParts(program, ok, err, d, stages);
    hide Fine; hide CompiledTo; hide Stage; hide Kept; hide Turn; hide Library.Closed; hide Agree; hide Reckons;
    hide Built;
    AllKept(d, err, program, ok, stages[|d.early|]);
  }

  lemma NotDeclared(
    program: seq<Written>, ok: Value, err: Value, nets: seq<int>, d: Draft, lib: Library, e: Certificate)
    requires Explained(nets, ok, d) && Padded(d, lib) && lib.Closed() && CoversAll(lib, e) && !Accepts(lib, e)
    requires d.named == |program| <= |d.sentences| <= |lib.sentences|
    requires forall s: nat | s < |program| :: d.annotations[s] == program[s].annotations
    ensures !MeetsAnnotations(program, lib, e) && !Unannotated(program)
  {
    hide Certifies; hide Piece; hide Library.Closed;
    forall s | |program| <= s < |lib.sentences| ensures Declared(lib, s, e.arities[s]) {
      if s < |d.sentences| {
        assert Accounted(nets, ok, d, s);
      }
    }
    assert exists s: nat :: s < |program| && !Declared(lib, s, e.arities[s]);
  }

  /** With stack effects throughout, only an annotation of a named sentence can be what is not met. */
  lemma RefusedAtLast(
    program: seq<Written>, ok: Value, err: Value, nets: seq<int>, rank: seq<nat>, top: seq<nat>, d: Draft,
    stages: seq<Library>)
    requires Built(program, ok, err, d, stages) && Claimed(program, nets, rank, top, ok, d) && Uncertified(d, stages)
    ensures Settled(program) ==> AnnotationsDecide(program, false, d, stages) && !Unannotated(program)
  {
    if Settled(program) {
      hide *;
      ClaimedParts(program, nets, rank, top, ok, d);
      UncertifiedParts(d, stages);
      BuiltParts(program, ok, err, d, stages);
      SettledIsCovered(program, nets, rank, top, ok, err, d, stages);
      var lib := stages[|d.early|];
      ProgramFits(program, ok, err, d, stages);
      forall e: Certificate | CoversAll(lib, e)
        ensures !MeetsAnnotations(program, lib, e) && !Unannotated(program)
      {
        NotDeclared(program, ok, err, nets, d, lib, e);
      }
      NowDecided(program, false, d, stages);
    }
  }

  /** Names and annotations come out where they were written. */
  predicate NamesKept(program: seq<Written>, lib: Library) {
    && |program| <= |lib.sentences| && |program| <= |lib.names| && |program| <= |lib.annotations|
    && forall s | 0 <= s < |program| ::
      lib.names[s] == program[s].name && lib.annotations[s] == program[s].annotations
  }

  lemma KeptNames(d: Draft, program: seq<Written>, ok: Value, err: Value, later: Library)
    requires Fine(d, err) && CompiledTo(d, program, ok, |program|)
    requires Kept(Library(d.sentences, d.names, d.annotations), later, d.early)
    ensures NamesKept(program, later)
  {
    SameLengths(d, err);
  }

  /** Stack effects being unique, one certificate meets what is declared if another does. */
  lemma AlsoMeets(program: seq<Written>, lib: Library, c: Certificate, e: Certificate)
    requires lib.Closed() && CoversAll(lib, c) && CoversAll(lib, e) && |program| <= |lib.sentences|
    requires MeetsAnnotations(program, lib, c)
    ensures MeetsAnnotations(program, lib, e)
  {
    hide Certifies; hide Library.Closed;
    forall s: nat | s < |program| ensures Declared(lib, s, e.arities[s]) {
      CertificatesAgree(lib, c, e, s);
    }
  }

  lemma AcceptedParts(program: seq<Written>, lib: Library, c: Certificate)
    requires lib.Closed() && Accepts(lib, c) && |program| <= |lib.sentences|
    ensures CoversAll(lib, c) && MeetsAnnotations(program, lib, c) && Certifies(lib, c)
  {
    hide Certifies;
  }

  /** The library that comes out accepted. */
  lemma AcceptedAtLast(
    program: seq<Written>, ok: Value, err: Value, c: Certificate, d: Draft, stages: seq<Library>)
    requires Built(program, ok, err, d, stages) && |stages| == |d.early| + 1 && stages[|d.early|].Closed()
    requires Accepts(stages[|d.early|], c)
    ensures Settled(program) && RunsAsWritten(program, ok, err, stages[|d.early|], c)
    ensures NamesKept(program, stages[|d.early|]) && AnnotationsDecide(program, true, d, stages)
  {
    hide *;
    var lib := stages[|d.early|];
    ProgramFits(program, ok, err, d, stages);
    BuiltParts(program, ok, err, d, stages);
    NowInstalled(d, program, ok, err, lib, c);
    KeptNames(d, program, ok, err, lib);
    AcceptedParts(program, lib, c);
    InstalledSettles(program, ok, err, c, d, stages);
    InstalledRunsAsWritten(d, program, ok, err, lib, c);
    forall e: Certificate | CoversAll(lib, e) ensures MeetsAnnotations(program, lib, e) {
      AlsoMeets(program, lib, c, e);
    }
    NowDecided(program, true, d, stages);
  }

  /** The machine does with each named sentence what was declared of it. */
  ghost predicate AnnotationsKept(program: seq<Written>, lib: Library) {
    forall s: nat, k | s < |program| && 0 <= k < |program[s].annotations| ::
      KeepsTo(lib, s, program[s].annotations[k])
  }

  lemma NowKept(program: seq<Written>, lib: Library)
    requires NamesKept(program, lib) && lib.Closed()
    requires forall s, k | 0 <= s < |lib.sentences| && 0 <= k < |lib.annotations[s]| ::
      KeepsTo(lib, s, lib.annotations[s][k])
    ensures AnnotationsKept(program, lib)
  {
    hide KeepsTo;
  }

  /** What is declared is met exactly if, on just the values declared, each sentence leaves just what is declared. */
  lemma AnnotationsMean(program: seq<Written>, lib: Library, e: Certificate)
    requires lib.Closed() && CoversAll(lib, e) && |program| <= |lib.sentences|
    ensures GoesDown(lib, e.ranks)
    ensures MeetsAnnotations(program, lib, e) <==>
      forall s: nat, k | s < |program| && 0 <= k < |lib.annotations[s]| ::
        Leaves(lib, e.ranks, s, lib.annotations[s][k])
  {
    hide Certifies; hide GoesDown; hide Meets; hide Leaves;
    CertifiedDescends(lib, e);
    forall s: nat, k | s < |program| && 0 <= k < |lib.annotations[s]|
      ensures Meets(e.arities[s], lib.annotations[s][k]) <==> Leaves(lib, e.ranks, s, lib.annotations[s][k])
    {
      CertifiedHas(lib, e.ranks, e, s);
      MeetsLeaves(lib, e.ranks, s, e.arities[s], lib.annotations[s][k]);
    }
    assert MeetsAnnotations(program, lib, e) <==>
      forall s: nat, k | s < |program| && 0 <= k < |lib.annotations[s]| ::
        Meets(e.arities[s], lib.annotations[s][k]);
  }

  lemma ClaimedNets(program: seq<Written>) returns (nets: seq<int>, rank: seq<nat>, top: seq<nat>)
    ensures Settled(program) ==> Settles(Bodies(program), nets, rank, top) && AllLevel(nets, program)
  {
    hide Level; hide CallsBelow; hide NetOf; hide TailSettles;
    nets, rank, top := [], [], [];
    if Settled(program) {
      nets, rank, top :| Settles(Bodies(program), nets, rank, top);
      forall s | 0 <= s < |program| ensures Level(nets, program[s].body) {
        assert SettlesAt(Bodies(program)[s], s, nets, rank, top);
      }
    }
  }

  /**
   * A program compiled, its early returns finished, its stack effects checked. It is accepted exactly if its words
   * settle and the stack effects it then has meet what is declared of its sentences, and what comes out runs as
   * written and keeps what is declared. What is refused has, when its turn comes, an early return that cannot match
   * the rest of its block, or, with all of them finished, no stack effects that meet what is declared.
   */
  method Assemble(program: seq<Written>, ok: Value, err: Value)
    returns (r: Result<Library, AssemblyError>, ghost c: Certificate, ghost d: Draft, ghost stages: seq<Library>)
    requires forall s | 0 <= s < |program| :: Labelled(program[s].body, |program|)
    ensures Built(program, ok, err, d, stages)
    ensures r.Ok? ==> RunsAsWritten(program, ok, err, r.value, c) && r.value == stages[|stages| - 1]
    ensures r.Ok? ==> NamesKept(program, r.value) && AnnotationsKept(program, r.value)
    ensures r.Err? && r.error.Unacceptable? ==> Uncertified(d, stages)
    ensures r.Err? && r.error.Unmatched? ==> Exceeds(d, stages, r.error.balance)
    ensures r.Ok? ==> Settled(program)
    ensures Settled(program) ==> AnnotationsDecide(program, r.Ok?, d, stages)
    ensures Settled(program) && Unannotated(program) ==> r.Ok?
  {
    hide *;
    c := Certificate(map[], map[]);
    ghost var nets, rank, top := ClaimedNets(program);
    var compiler := CompileAll(program, ok, err, nets);
    d := compiler.View();
    var library := Library(compiler.sentences, compiler.names, compiler.annotations);
    var finished;
    CompilerView(compiler);
    ReadyToBalance(d, err);
    finished, stages := BalanceEarlyReturns(library, compiler.earlyReturns, err);
    NowBuilt(program, ok, err, d, stages);
    NowClaimed(program, nets, rank, top, ok, d);
    if finished.Err? {
      NowExceeds(d, stages, finished.error);
      RefusedAtTurn(program, ok, err, nets, rank, top, d, stages, finished.error);
      return Err(Unmatched(finished.error)), c, d, stages;
    }
    BuiltParts(program, ok, err, d, stages);
    var checked, ranks := CheckArities(finished.value);
    if checked.Err? {
      NowUncertified(d, stages);
      RefusedAtLast(program, ok, err, nets, rank, top, d, stages);
      return Err(Unacceptable(checked.error)), c, d, stages;
    }
    c := Certificate(checked.value, ranks);
    AcceptedAtLast(program, ok, err, c, d, stages);
    NowKept(program, finished.value);
    r := Ok(finished.value);
  }

  /** One named sentence, on one stack, from the whole claim. */
  lemma AsWritten(
    program: seq<Written>, ok: Value, err: Value, lib: Library, c: Certificate, s: SentenceIndex, stack: seq<Value>,
    fuel: nat)
    requires RunsAsWritten(program, ok, err, lib, c) && s < |program| && s in c.arities && s in c.ranks
    requires fuel > c.ranks[s]
    ensures Covered(lib, c, s) && Certifies(lib, c) && s < |lib.sentences|
    ensures forall t | 0 <= t < |program| :: t in c.arities
    ensures Means(Words(program, c, ok, err), program[s].body, stack, fuel) == Of(RunFrom(lib, c, s, 0, stack))
  {
    hide Means; hide RunFrom; hide Certifies;
  }

  lemma MachineFinishes(lib: Library, c: Certificate, s: SentenceIndex, stack: seq<Value>)
    requires Covered(lib, c, s) && RunFrom(lib, c, s, 0, stack).Some?
    ensures exists n :: RunFor(lib, State(stack, [], s, 0), n) == Finished(RunFrom(lib, c, s, 0, stack).value)
  {
    hide RunFrom; hide RunFor;
    var n := MachineRuns(lib, c, s, 0, stack, []);
    RunForNext(lib, State(stack, [], s, 0), State(RunFrom(lib, c, s, 0, stack).value, [], s, |lib.sentences[s]|), n);
  }

  /**
   * The machine runs what was written: on any stack deep enough for the sentence it halts, never
   * underflows, and leaves exactly the stack the words mean.
   */
  lemma MachineRunsAsWritten(
    program: seq<Written>, ok: Value, err: Value, lib: Library, c: Certificate, s: SentenceIndex, stack: seq<Value>,
    fuel: nat)
    requires RunsAsWritten(program, ok, err, lib, c) && s < |program| && s in c.arities && s in c.ranks
    requires fuel > c.ranks[s] && |stack| >= c.arities[s].inputs
    ensures Means(Words(program, c, ok, err), program[s].body, stack, fuel).Done?
    ensures exists n ::
      RunFor(lib, State(stack, [], s, 0), n)
        == Finished(Means(Words(program, c, ok, err), program[s].body, stack, fuel).stack)
  {
    AsWritten(program, ok, err, lib, c, s, stack, fuel);
    hide Means; hide RunFrom; hide RunFor; hide RunsAsWritten; hide Certifies;
    SentenceFaithful(lib, c, s, stack);
    MachineFinishes(lib, c, s, stack);
  }

  /** A named sentence replaces its inputs by what its term leaves for them, whatever lies beneath. */
  lemma SentenceComputes(
    program: seq<Written>, ok: Value, err: Value, lib: Library, c: Certificate, s: SentenceIndex, args: seq<Value>,
    fuel: nat)
    returns (results: seq<Value>)
    requires RunsAsWritten(program, ok, err, lib, c) && s < |program| && s in c.arities && s in c.ranks
    requires fuel > c.ranks[s] + 1 && |args| == c.arities[s].inputs
    ensures |results| == c.arities[s].outputs
    ensures Computes(Words(program, c, ok, err), [Word.Jump(Label(s))], args, results, fuel)
  {
    hide RunFrom; hide RunOn; hide Run; hide Certifies; hide LowerSentence; hide LibraryCalls;
    var p := Words(program, c, ok, err);
    var term, calls := LowerSentence(lib, c, s), LibraryCalls(lib, c);
    results := Run(term, calls, args);
    forall below: seq<Value> ensures Means(p, [Word.Jump(Label(s))], below + args, fuel) == Done(below + results) {
      SentenceFaithful(lib, c, s, below + args);
      RunOnSplit(term, calls, below, args);
      OneWord(p, Word.Jump(Label(s)), below + args, fuel);
      assert p.bodies[s] == program[s].body;
      assert Means(p, program[s].body, below + args, fuel - 1) == Of(RunFrom(lib, c, s, 0, below + args));
    }
  }

  /** For `X : n -> m`: `dip d { X } ; (roll (d + m - 1))^m` is `(roll (d + n - 1))^n ; X`. */
  lemma FramedSentenceIsRolled(
    program: seq<Written>, ok: Value, err: Value, lib: Library, c: Certificate, s: SentenceIndex,
    low: seq<Value>, args: seq<Value>, high: seq<Value>, fuel: nat)
    requires RunsAsWritten(program, ok, err, lib, c) && s < |program| && s in c.arities && s in c.ranks
    requires fuel > c.ranks[s] + 1 && |args| == c.arities[s].inputs
    ensures var (p, x, d) := (Words(program, c, ok, err), [Word.Jump(Label(s))], |high|);
      var (n, m) := (c.arities[s].inputs, c.arities[s].outputs);
      Means(p, [Word.Dip(d, Inline(x))] + Rolls(Depth(d, m), m), low + args + high, fuel)
      == Means(p, Rolls(Depth(d, n), n) + x, low + args + high, fuel)
  {
    var results := SentenceComputes(program, ok, err, lib, c, s, args, fuel);
    FramedIsRolled(Words(program, c, ok, err), [Word.Jump(Label(s))], |high|, low, args, results, high, fuel);
  }
}
