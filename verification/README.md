# Hanoi, modelled and proved

Hanoi is a total, recursion-free stack language with a prover for equations between its programs. A
written program is compiled to sentences of a small instruction set, a machine runs them, a static pass
infers what every sentence takes off the stack and leaves there, and two engines decide when two programs
are the same: one evaluates a term symbolically into a shared decision diagram, the other rewrites the
term as a graph. This project models that chain and proves what each link promises.

Everything rests on a few definitions: `Values.Value`, the local instructions and their junk answers
(`Prims.Answer`), a term as a tree (`Terms.Tree`) and what running it gives (`Terms.Run`), the machine's
transition function (`Machine.Step`), and certificates of stack effects (`Libraries.Certifies`).

The parts, in the order they build on each other:

- `Values`, `Prims`, `Totality`: values, 64-bit arithmetic, coercions, and the answers off the domain.
- `Terms`, `Spines`: the term algebra, its padding, and the arena terms are stored in.
- `Libraries`, `Machine`, `Meanings`, `Lowering`, `Heights`, `Promises`, `Arities`, `Lowerers`: compiled libraries, the
  machine, lowering a sentence to a term that does what the machine does, the heights a sentence may come to and what
  an annotation promises, and inference of stack effects.
- `Wires`, `Order`, `Supports`, `Folds`, `Substitutions`, `Comebacks`, `Disorder`, `Diagrams`, `Engine`, `Readings`,
  `Landings`, `Walking`, `Freedom`, `Normalize`, `Judge`, `Schedules`, `Reifying`: the diagram engine, with its folds,
  its substitution of tested literals, its interning and memo tables; which terms it tells apart; and spelling a
  diagram out as a term again.
- `Goals`, `Tactics`, `Closings`, `Strategies`, `Identities`: the prover's steps, what a strategy answers, and what a
  closed goal means on the machine.
- `Wirings`, `Splices`, `Laws`, `Graphs`, `Steps`, `Checking`, `Renamings`, `Derivations`, `Searches`,
  `Saturation`, `Building`, `Sorting`, `Routing`, `Scheduling`, `ReadBack`, `Rewriting`: the graph engine,
  from a term to a graph, through every law to fixpoint, and back.
- `Surface`, `Emitting`, `Expansions`, `Balances`, `Compiled`, `Drafts`, `Compiling`, `EarlyReturns`,
  `Settling`, `Accepting`, `Accepted`, `Assembling`, `TypeChecks`: the written language, its compilation into shared
  blocks, early returns, which programs are accepted, and the generated type checks.
- `Printing`, `Parsing`, `RoundTrips`, `Reading`: terms as text, and back.

The main results:

1. Two terms that normalize to one diagram are the same program (`Judge.OneDiagramIsSame`). The other way round: of
   terms that only wire, push, call and branch the judge says yes exactly to those that nothing tells apart, the truth
   of values being left as open as what the calls answer (`Judge.OneDiagram`, `Readings.Alike`); that is sameness
   where nothing branches, and where what is tested is used for nothing else (`Judge.SameIsOneDiagram`). Of terms with
   operations it says yes wherever both diagrams have plain conditions, none of them `equal` against a literal, and
   choose the same leaf wires whatever holds. For such diagrams deciding always ends (`Engine.Ctx.Ite`, and so terms
   without `equal` always normalize, `Normalize.NormalForm`), choosing alike is being one index
   (`Judge.PlainIsCanonical`), and spelling one out and normalizing that finds it again (`Reifying.Reread`). Where a
   value tests `equal` to a literal, the wire that comes out of writing the literal for it is pinned
   (`Engine.Ctx.SubstVal`), and the arm taken no longer reads the value (`Engine.Ctx.Restrict`).
2. A goal the prover closes is true on every input (`Strategies.Prover.RunSteps`), down to the machine
   (`Identities.InterchangeableOnTheMachine`). What a strategy answers is determined step by step
   (`Tactics.Answer`, and for each step `Closings`) up to what the diagram engine makes of terms whose instructions
   compute.
3. A library is accepted exactly if no sentence reaches itself, each comes to one height whichever arms its branches
   take, and on just the values an annotation declares each leaves just what it declares (`Arities.CheckArities`,
   `Heights.Sane`). Then every sentence halts without underflow, within the size of its call expansion, touches nothing
   below its inputs (`Lowering.SentenceRuns`), and keeps its annotations on the machine (`Promises.MeetsKeeps`).
   Lowered, a sentence does what it says under every reading of the calls it makes by name, and those alone stay
   closed (`Lowering.SentenceAnswered`, `Lowering.SentenceCalls`).
4. Rewriting to fixpoint and reading back preserves a term under every reading of its operations
   (`Rewriting.Rewrite`), leaves nothing to rewrite (`Saturation.NothingFires`), and can be walked all the
   way home (`Derivations.Derivation.Undo`).
5. An assembled program runs as it was written, early returns included (`Assembling.Assemble`,
   `Assembling.MachineRunsAsWritten`). A program is accepted exactly if its words settle and the stack effects it
   then has meet its annotations. To settle is a matter of the words alone (`Settling.Settles`): the arms of each
   branch change the height alike, calls go down in some order, nothing that follows a `?` leaves more than it
   takes, and an early return that has to drop something reaches only such as come before it.
6. A printed term is read back as the identical tree (`RoundTrips.PrintedIsRead`).

What turned out not to hold is stated where it fails, with the exact condition under which it does:

- That terms which are the same are one diagram: `Readings.SameNotAlike`. To leave `x` outright is the same as to leave
  it where `x` or `y` is true and `y` otherwise, since only `false` is not true; the engine knows nothing of that. It
  tells apart exactly what some truth of the values tells apart (`Judge.AlikeIsOneDiagram`, `Judge.OneDiagramIsAlike`).
- That a wire for which a literal is written is gone from what comes out: `Substitutions.ImpureComesBack`. It is so,
  however the arena grows, exactly of the wires that have no literal beneath them (`Comebacks.ForgottenExactly`).
- `Laws.NotNotIsNotStructural`: the law of two negations needs the machine's reading.
- `RoundTrips.IntegersReadExactly`: `i64::MIN` prints, but a build that checks overflow does not read it back; one that
  wraps does. `RoundTrips.StringsReadExactly`: the printer escapes string literals and the reader does not undo it. Both
  conditions are in terms of what the host prints as it is and whether it checks overflow.

Where the code and its documentation disagree the model follows the code. The comment at
vm/src/lib.rs:266-268 and docs/hana_reference.md:104 say a branch takes its then arm on `true` alone; the
code takes it on every value but `false`, and so does the model. The comment at rewrite/src/diagram.rs:121-131
says conditions increase along every path; substituting a literal into an arm can break that
(`Disorder.SubstitutionUnsorts`), so order and canonicity are claimed only where no condition tests against a
literal, termination of `ite` there and between leaves, while soundness never relies on order. The comment at
bytecode/src/arity.rs:97-99 takes it that whatever a rest arm can reach is finished before the arm is reckoned; that is so of a
`?` nested in the arm, but not of one in a later sentence the arm calls, and such a program is refused
(`Settling.OrderMatters`) although the same sentences in the other order are accepted.

## Model

| member | source | states |
|---|---|---|
| Totality.WrapTurns | vm/src/lib.rs:186-211 | wrapping arithmetic adds whole turns of 2^64, and the wrapped number is the only 64-bit one that does |
| Totality.TruncationRebuilds | vm/src/lib.rs:212-237 | division and remainder truncate toward zero: quotient times divisor plus remainder is the dividend, the remainder smaller than the divisor and of the dividend's sign |
| Totality.QuotientAndRemainder | vm/src/lib.rs:186-237 | on the machine, with every wrap-around and `i64::MIN / -1` included, `x / y * y + x % y` is `x` |
| Totality.DivisionTruncates | vm/src/lib.rs:197-218 | whatever `divide` and `modulo` answer by a divisor not 0: the remainder is nearer 0 than the divisor and on the dividend's side, and the two rebuild the dividend, but for `i64::MIN / -1`, which is `i64::MIN` with remainder 0 |
| Totality.RingUpToTurns | vm/src/lib.rs:173-196 | `add`, `subtract` and `multiply` answer on integers the 64-bit number that is whole turns of 2^64 from the true one, and no other |
| Totality.NegationInverts | vm/src/lib.rs:233-239 | a value and its negation make 0, and no other number does with that one; negating twice is `as_int`; off the integers the answer is 0 |
| Totality.NoAnswerIsZero | vm/src/lib.rs:173-218 | arithmetic off the integers answers 0, and so do `divide` and `modulo` by zero |
| Totality.Trichotomy | bytecode/src/value.rs:97-102 | on two integers exactly one of less, equal, greater; off the numbers neither less nor greater; `greater` is `less` with operands exchanged |
| Totality.TruthOfEach | bytecode/src/value.rs:80-82 | only `Bool(false)` is false, and each operand of a connective is coerced on its own |
| Totality.TruthTables | vm/src/lib.rs:151-232 | `equal` is equality of values; `and` and `or` are the truth tables over what their operands count as, every value but `Bool(false)` being true |
| Totality.OneType | vm/src/lib.rs:315-336 | of the five type tests every value passes exactly one and fails the others |
| Totality.TestsKnowTypes | vm/src/lib.rs:315-372 | a value passes the test of its own type; for integers, booleans and tuples that is the type whose coercion leaves it alone |
| Totality.DeMorgan | vm/src/lib.rs:219-233 | De Morgan's laws hold on every value, not only on booleans |
| Totality.CoercionsSettle | vm/src/lib.rs:346-372 | a coercion lands in its type, leaves exactly the values of that type alone, answers everything else with one default, and is idempotent |
| Totality.UntuplingCoerces | vm/src/lib.rs:311-328 | `untuple n` is `as_tuple n ; untuple n`, and rebuilding what it leaves is `as_tuple n` |
| Totality.TuplingComesApart | vm/src/lib.rs:294-328 | tupling then taking apart gives the operands back in stack order |
| Totality.TuplingCounts | vm/src/lib.rs:283-348 | `tuple_length` after `tuple n` is `n`, up to the turns a length wraps by, and 0 off the tuples |
| Totality.StringsByIndex | vm/src/lib.rs:373-397 | `const_string_len` is the number of characters and `const_string_char_at` the character at each index below it; at any other index, and off the type, 0 |
| Totality.StringsAreTheirCharacters | vm/src/lib.rs:373-397 | two strings that no length and no index tells apart are one |
| Totality.CommutativeExactly | bytecode/src/opcode.rs:235-244 | of all instructions taking two values and leaving one, `tuple 2` among them, those that answer the same either way round are exactly the list |
| Totality.YieldsBoolExactly | bytecode/src/opcode.rs:275-294 | of all instructions that compute one value (a `push` only names one), those that always leave a `Bool` are exactly the list |
| Prims.CommutativeAnswers | bytecode/src/opcode.rs:235-244 | a listed instruction answers the same with its operands exchanged, junk answers included |
| Prims.YieldsBoolAnswers | bytecode/src/opcode.rs:275-294 | a listed instruction leaves one `Bool`, whatever it is given |
| Terms.ComposedRuns | rewrite/src/term.rs:542-551 | composing with padding runs one term and then the other, whatever their two widths |
| Terms.BranchedRuns | rewrite/src/term.rs:563-581 | the padded branch pops its condition and runs one arm on the rest of the stack |
| Terms.TreeStays | rewrite/src/term.rs:436-440 | an index means the same tree however the arena grows |
| Terms.Context.Push | rewrite/src/term.rs:436-458 | a node is appended with its arity, and nothing already there moves |
| Terms.Context.Compose | rewrite/src/term.rs:489-495 | built exactly when the halves meet, and otherwise refused with both arities |
| Terms.Context.Branch | rewrite/src/term.rs:503-512 | built exactly when the arms share an arity |
| Terms.Context.PadCompose | rewrite/src/term.rs:542-551 | the narrower side is the one widened |
| Terms.Context.PadBranch | rewrite/src/term.rs:563-581 | arms of one net are padded to one arity; arms of different nets are refused |
| Terms.Context.Equal | rewrite/src/term.rs:601-622 | true exactly when the two indices stand for one tree |
| Terms.Context.Check | rewrite/src/term.rs:631-672 | accepts exactly the terms whose every node keeps its constructor's invariant |
| Machine.VM.Perform | vm/src/lib.rs:119-399 | one instruction does to stack and call stack what one step of the transition function does, and faults exactly on underflow |
| Machine.VM.Execute | vm/src/lib.rs:71-401 | the loop ends where repeated steps end: finished with that stack, underflowed, off the library, or at the gas limit standing before an instruction of that run; the counter is the number of instructions it took |
| Libraries.CertificatesAgree | bytecode/src/arity.rs:197-226 | stack effects are a fact about the library: no two ways of working them out disagree |
| Libraries.PathsGoDown | bytecode/src/arity.rs:206-213 | along any chain of calls the order of a certificate strictly falls, so a library with a call cycle has none |
| Heights.CertifiedHas | bytecode/src/arity.rs:305-397 | a certified arity says, whichever arms are taken, how many values are enough and how many come of them, and with fewer some way through runs out |
| Heights.MeetsLeaves | bytecode/src/arity.rs:29-47 | to meet a declaration is to leave, on just the values declared and whichever arms are taken, just the values declared |
| Heights.FixedIsCertified | bytecode/src/arity.rs:305-397 | where calls go down and every sentence comes to one height whichever arms are taken, some certificate covers them all: no branch on the way can be lopsided |
| Heights.RefusedLeavesElse | bytecode/src/arity.rs:29-47 | with stack effects throughout, a refused library has an annotated sentence that on the values declared may run out or leave another number |
| Promises.MeetsKeeps | bytecode/src/arity.rs:8-47 | run on any values, as many as it declares, over anything, a sentence whose annotation is met finishes with as many as it declares and everything below as it was |
| Promises.KeepsItsNet | bytecode/src/lib.rs:687-701 | a promise of another net change than the sentence has is broken on the machine |
| Promises.MachineMayRun | vm/src/lib.rs:71-401 | the height the machine comes to, or its underflow, is among those the sentence may come to |
| Arities.Inference.GetOrInfer | bytecode/src/arity.rs:197-226 | terminates, records only justified answers, and answers whatever any certificate covers as that certificate says |
| Arities.Inference.InferInstructions | bytecode/src/arity.rs:305-397 | the running requirement and height are the effect of the instructions read so far |
| Arities.CheckArities | bytecode/src/arity.rs:8-65 | accepts a library exactly when some certificate accepts it, annotations included, and the table returned is that certificate; by heights alone, exactly when no sentence reaches itself, every one comes to one height whichever arms are taken, and on just what is declared of it leaves just what is declared; then the machine keeps every annotation |
| Arities.SentenceArity | bytecode/src/arity.rs:236-248 | an arity is found exactly when some certificate covers the sentence, and it is the one that certificate gives |
| Meanings.MachineRuns | vm/src/lib.rs:71-401 | from any sentence and any call stack the machine reaches what the sentence means, within the size of its call expansion |
| Lowering.SentenceFaithful | rewrite/src/term.rs:987-1079 | a certified sentence never underflows on a deep enough stack, and does to it what its lowered term does |
| Lowering.TargetFaithful | rewrite/src/term.rs:1055-1069 | read as the library has it, a call left closed or a block spliced in does what the sentence called does |
| Lowering.SentenceAnswered | rewrite/src/term.rs:987-1079 | under every reading of the calls the lowered term does what the sentence does with its jumps, frames and branches to named sentences answered by that reading and only `<inline>` blocks entered |
| Lowering.SentenceCalls | rewrite/src/term.rs:1055-1069 | the calls left closed in the term are exactly the named sentences called by the sentence and by the blocks it enters |
| Lowering.NamedStayClosed | rewrite/src/term.rs:1055-1069 | no call in the term names an `<inline>` block, and each carries the arity its sentence has |
| Lowering.DipRuns | rewrite/src/term.rs:1032-1053 | `dip` of a term is the term beside an identity: the hidden value passes on top, untouched |
| Lowering.SentenceRuns | vm/src/lib.rs:71-401 | in an accepted library every sentence halts within its call expansion, replaces exactly its inputs by its outputs and leaves everything below alone |
| Lowerers.LowerInto | rewrite/src/term.rs:954-960 | the imperative lowering, memo tables and all, builds the well-formed term of exactly the inferred arity; it does what the sentence does however the calls are read, and leaves closed exactly the calls by name |
| Lowerers.Lowerer.Target | rewrite/src/term.rs:1055-1069 | a named sentence becomes a `Call` with its arity; a shared block is lowered once: asked for again it is the same index and the arena is untouched |
| Wires.ValStays | rewrite/src/diagram.rs:142-160 | a wire carries the same value however the arena grows |
| Wires.DiagStays | rewrite/src/diagram.rs:142-160 | a diagram computes the same function however the arena grows |
| Order.WireOrder | rewrite/src/diagram.rs:772-803 | the order on wires is strict and total, and its equality is equality of index |
| Order.ValueOrder | rewrite/src/diagram.rs:839-863 | the order on literals is total, and equality in it is equality of values |
| Order.OpOrder | rewrite/src/diagram.rs:815-835 | the order on operations is total, and equality in it is equality of operations |
| Order.Canonical | rewrite/src/diagram.rs:121-131 | two diagrams whose own conditions test nothing against a literal and that choose the same leaf under every truth assignment are one index, whatever else the arena holds |
| Order.PlainIsSorted | rewrite/src/diagram.rs:121-131 | along every path of such a diagram its conditions strictly increase |
| Disorder.SubstitutionUnsorts | rewrite/src/diagram.rs:121-131 | and not where a condition tests against a literal: at one arena, deciding on `equal(5, x)` over a sorted arm takes a node that decides on `equal(5, y)` underneath, which comes before |
| Diagrams.LiteralHolds | rewrite/src/diagram.rs:597-613 | where an `equal` against a literal holds, the value tested is that literal |
| Folds.RetupledHolds | rewrite/src/diagram.rs:727-750 | rebuilding the outputs of one `untuple n` in order is `as_tuple n`, junk included |
| Folds.IdempotentHolds | rewrite/src/diagram.rs:753-764 | a coercion of its own answer changes nothing |
| Diagrams.ExpansionDecides | rewrite/src/diagram.rs:205-238 | deciding on an earlier condition first, with both arms restricted by it, decides the same |
| Engine.Ctx.InternVal | rewrite/src/diagram.rs:142-150 | equal nodes are one index, and every memo entry stays right |
| Engine.Ctx.InternDiag | rewrite/src/diagram.rs:152-160 | equal nodes are one index, and every memo entry stays right |
| Engine.Ctx.Apply | rewrite/src/diagram.rs:628-704 | what every fold leaves carries, in every world, what the operation answers; the wires are those one fixed list of folds says, and a box is built only where none applies |
| Folds.UnfoldedAnswers | rewrite/src/diagram.rs:628-704 | applied again to its own arguments, a box of the arena answers with its own wires |
| Folds.TupleComesApart | rewrite/src/diagram.rs:628-704 | what `tuple n` built comes apart into the wires it was built of |
| Folds.TupledAgain | rewrite/src/diagram.rs:727-750 | the outputs of one `untuple n`, tupled again, are what its coercion is |
| Folds.EitherWayRound | rewrite/src/diagram.rs:628-704 | a commutative operation has one answer for both orders of its operands |
| Folds.CoercedAgain | rewrite/src/diagram.rs:753-764 | a coercion of a wire that is no literal is that wire exactly if the same coercion left it, and a new box otherwise |
| Folds.KnownBoolean | rewrite/src/diagram.rs:628-704 | `is_bool` of a wire that is no literal is the literal `true` exactly if the wire is of an instruction that always leaves a boolean, and a new box otherwise |
| Substitutions.SubstitutedOnce | rewrite/src/diagram.rs:310-343 | which wire comes out of writing one wire for another is determined |
| Substitutions.WindowCloses | rewrite/src/diagram.rs:310-343 | a box whose arguments all become literals becomes the literal the machine answers on them |
| Substitutions.SubstitutedReads | rewrite/src/diagram.rs:310-343 | of the wires with no literal beneath them, what comes out when a literal is written reads none that was not read before, and no longer the one it was written for |
| Substitutions.ImpureComesBack | rewrite/src/diagram.rs:310-343 | with `x = subtract(v0, 7)`, writing 7 for `x` in `subtract(v0, x)` gives `x` itself |
| Comebacks.ForgottenExactly | rewrite/src/diagram.rs:310-343 | a wire is gone from whatever comes out of writing a literal for it, in every arena this one grows into, exactly if no literal is beneath it |
| Engine.Ctx.SubstVal | rewrite/src/diagram.rs:310-343 | the wire that comes out is the one determined by the substitution: `to` for `from` itself, the wire there was where nothing beneath changed, and otherwise what the folds answer on the changed arguments; it carries the same value wherever the two exchanged wires do |
| Engine.Ctx.SubstDiag | rewrite/src/diagram.rs:280-304 | the rewritten diagram computes the same wherever the two exchanged wires agree; a leaf becomes the leaf of what its wires become; where a literal is written for a wire with none beneath it, nothing reads that wire any more, and nothing else comes to be read |
| Engine.Ctx.Restrict | rewrite/src/diagram.rs:245-274 | the restricted diagram is the diagram wherever the condition comes out as taken; where that is `equal` of a wire and a literal the literal is written for the wire, and if no literal is beneath the wire nothing reads it any more; any other condition takes off a root that asks it and nothing else |
| Engine.Ctx.Branch | rewrite/src/diagram.rs:186-197 | decides on its condition between its arms, and always answers unless that condition is `equal` against a literal; one node, or the common arm; among plain conditions it chooses the leaf of the arm taken |
| Engine.Ctx.Ite | rewrite/src/diagram.rs:205-238 | decides on its condition between its arms; if neither the condition nor any in the arms is `equal` against a literal, it always answers, decides on nothing else, and finds a node that is there already; between two leaves it always answers, whatever the condition, and decides at most once |
| Engine.Ctx.FoundAgain | rewrite/src/diagram.rs:205-238 | deciding between the two arms of a sorted node on its own condition is that node |
| Normalize.NormalForm | rewrite/src/diagram.rs:425-428 | for every well-formed term the diagram computes, under every reading of the calls and on every input, what running the term gives; if no condition this run asks about is `equal` against a literal an answer is always given, and its leaf under every truth of the conditions has the wires the term lands on; so whenever neither the term nor any wire of the arena is an `equal`; and, whatever is compared, for a term with one branch between straight arms |
| Normalize.Eval | rewrite/src/diagram.rs:432-516 | right on every input consistent with the decided path |
| Normalize.GraftThen | rewrite/src/diagram.rs:533-557 | grafting after `;` runs the second term on every leaf |
| Normalize.GraftBeside | rewrite/src/diagram.rs:533-557 | grafting beside `*` runs the second term on what was carried past the first |
| Normalize.BranchOn | rewrite/src/diagram.rs:561-590 | a literal condition, or one the path has decided, outermost first, picks its arm and adds no decision; an undecided one forks, the stack of its then arm with the tested literal written in |
| Landings.LandsOnce | rewrite/src/diagram.rs:432-516 | a term without branches leaves given wires on one stack of wires only |
| Normalize.StraightRepeated | rewrite/src/diagram.rs:432-516 | evaluating such a term whose wires are settled finds the leaf of those wires |
| Normalize.ForkRepeated | rewrite/src/diagram.rs:561-590 | evaluating a branch on a condition no path has settled finds the node of that condition whose arms its arms find |
| Judge.OneDiagramIsSame | rewrite/src/diagram.rs:425-428 | terms that normalize to one diagram are the same program |
| Readings.AlikeIsSame | rewrite/src/diagram.rs:425-428 | terms that no truth of the values, no reading of the calls and no stack tells apart are the same program |
| Readings.StraightAlike | rewrite/src/diagram.rs:432-516 | where nothing branches the two are one notion |
| Readings.BranchesReorder | rewrite/src/diagram.rs:1331-1340 | two independent tests in either order, over any four arms, are not to be told apart |
| Readings.SameNotAlike | rewrite/src/diagram.rs:121-131 | two terms that wire and branch, are the same program, and are told apart by a truth of values the machine does not have |
| Walking.WalksRun | rewrite/src/diagram.rs:432-590 | the wires a term lands on, under a truth of the conditions that the values bear out, carry what running the term under that truth leaves |
| Freedom.MeantInjective | rewrite/src/diagram.rs:142-150 | in the free reading no two wires of inputs, literals and calls carry one value |
| Judge.AlikeIsOneDiagram | rewrite/src/diagram.rs:425-516 | terms that only wire, push, call and branch and that nothing tells apart normalize to one diagram |
| Judge.OneDiagramIsAlike | rewrite/src/diagram.rs:425-516 | and conversely |
| Judge.ChooseAlikeIsOne | rewrite/src/diagram.rs:186-238 | two diagrams of plain conditions, with whatever operations at their leaves, whose leaves have the same wires whatever holds are one index |
| Judge.ParallelIsOneDiagram | rewrite/src/diagram.rs:425-516 | terms without `equal` that land on the same wires under every truth of their conditions normalize to one diagram |
| Judge.SameIsOneDiagram | rewrite/src/diagram.rs:425-516 | where leaves hold only inputs, literals and answers of calls, with nothing beneath them that is tested, terms no input and no reading of the calls tells apart normalize to one diagram |
| Judge.OneDiagram | rewrite/src/strategy.rs:83-106 | a yes is always right; terms without `equal` always get an answer; it is yes wherever the two diagrams have plain conditions and choose leaves of the same wires whatever holds, and so for terms without `equal` that land on the same wires in every arena; for terms that only wire, push, call and branch it is yes exactly if nothing tells them apart, the truth of values being as open as the calls, and where nothing branches, or what is tested is used for nothing else, exactly if they are the same |
| Judge.PlainIsCanonical | rewrite/src/diagram.rs:186-274 | two diagrams of one arena none of whose own conditions is `equal` against a literal, and that choose alike, are one index and sorted |
| Schedules.StepAdded | rewrite/src/diagram.rs:1070-1076 | a step composed with padding after others takes the stack from what they left to what it leaves |
| Schedules.BoxTurns | rewrite/src/diagram.rs:1031-1042 | a box no fold applies to, run again on the wires of its arguments in any later arena, leaves the wires it left |
| Reifying.Schedule.Ensure | rewrite/src/diagram.rs:989-1028 | a wire ends on the stack with its arguments before it, and no wire or box is ever computed twice |
| Reifying.Schedule.EmitApplication | rewrite/src/diagram.rs:1031-1042 | arguments computed and fetched in order, the box applied once for all its outputs |
| Reifying.Schedule.Fetch | rewrite/src/diagram.rs:1046-1065 | a copy of the wire on top, everything else where it was |
| Reifying.ScheduleLeaf | rewrite/src/diagram.rs:898-922 | the leaf's wires alone are left, each distinct wire having been computed once |
| Reifying.Reify | rewrite/src/diagram.rs:898-951 | a well-formed term of exactly inputs to outputs that computes the diagram's function |
| Reifying.Reread | rewrite/src/diagram.rs:898-951 | a diagram none of whose conditions is `equal` against a literal, spelled out and normalized again in the same arena, is found again as the same index |
| Reifying.Respell | rewrite/src/diagram.rs:898-951 | normalizing and spelling out gives the same program, always if the arena and the term compare nothing, and where no condition of the diagram is `equal` against a literal normalizing the spelling finds the same diagram |
| Goals.NeverOpened | rewrite/src/strategy.rs:64-72 | with no call opened, a closed goal holds under every reading of the calls |
| Goals.PaddingCancels | rewrite/src/goal.rs:44-57 | two terms that agree under a pad of untouched values agree without it |
| Goals.CutProves | rewrite/src/strategy.rs:120-156 | both halves of a cut settle the goal, the padding the waypoint needed cancelling out |
| Goals.PeelProves | rewrite/src/strategy.rs:385-419 | what is left between shared ends settling the goal settles the goal |
| Goals.DescendProves | rewrite/src/strategy.rs:232-259 | settling both pairs of arms settles the two branches |
| Goals.CallOpens | rewrite/src/strategy.rs:474-515 | a call replaced by the term of the sentence it names computes the same |
| Goals.CallsAreThere | rewrite/src/strategy.rs:474-515 | there is a call to open exactly if one of the term's calls is one, or is to the sentence named |
| Closings.CallIsNotItsBody | rewrite/src/diagram.rs:1420-1442 | a call left closed that leaves anything is not the program of the sentence it names |
| Closings.InlineCloses | rewrite/src/strategy.rs:199-231 | opened, labelled or not, it is: the goal between a call and the term of its sentence closes |
| Closings.CutCloses | rewrite/src/strategy.rs:120-178 | a cut whose halves are left to `diagram` closes exactly if nothing tells the waypoint from either side, on terms that wire, push, call and branch |
| Closings.DescendCloses | rewrite/src/strategy.rs:232-260 | two branches close exactly if their arms do, then with then and else with else, an arm without a strategy having to be equal as written |
| Closings.PeelsFront | rewrite/src/strategy.rs:385-419 | what two terms begin with alike comes off, and the rest of the strategy is asked of what is left |
| Closings.PeelsBack | rewrite/src/strategy.rs:385-419 | and so does what they end with alike |
| Tactics.SymmExchanges | rewrite/src/strategy.rs:179-198 | `symm` asks the rest of the strategy of the goal with its sides exchanged, and twice is nothing |
| Spines.SpineRuns | rewrite/src/strategy.rs:422-435 | a term does what its flattened chain does |
| Spines.RebuiltRuns | rewrite/src/strategy.rs:442-448 | a stretch of chain rebuilt does what the stretch did, an empty one being the identity on its width |
| Strategies.Prover.Align | rewrite/src/goal.rs:44-57 | the shallower side is padded, and exactly by the difference |
| Strategies.Prover.PeelEnds | rewrite/src/strategy.rs:385-419 | exactly the shared ends come off, the leading parts first and of what is left then the trailing ones; nothing is answered exactly when no end is shared |
| Strategies.Prover.SpineOf | rewrite/src/strategy.rs:422-435 | the chain of parts, as indices of the arena |
| Strategies.Prover.InlineCalls | rewrite/src/strategy.rs:474-515 | without a label every call is opened, repeatedly; with one only the calls to that sentence, once, and every other stays closed as it was; what comes out has no call in reach left and computes the same |
| Strategies.Prover.RunSteps | rewrite/src/strategy.rs:64-260 | whenever the answer is closed, both sides leave the same stack on every input, through any nesting of steps; sides that are one term close before any step, and on every goal the answer is the one the strategy has step by step, except where a `diagram` is reached with sides whose instructions compute and that do not land on the same wires |
| Tactics.Ends | rewrite/src/strategy.rs:385-419 | as many leading parts as the spines share, then as many trailing ones as are shared of what is left: what they are peeled of is equal on both sides |
| Identities.ProveIdentity | rewrite/src/strategy.rs:50-59 | a proof that closes makes the two named sentences interchangeable in the library, and where the answer of the strategy is known beforehand this is it; with no strategy written, sides that only wire, push, call and branch close exactly if nothing tells them apart |
| Identities.InterchangeableOnTheMachine | rewrite/src/strategy.rs:50-59 | and then the machine finishes both with the same stack, whatever lies below |
| Wirings.ActualRuns | rewrite/src/diagram2/meaning.rs:29-60 | the opaque reading of a term, with operations answered as the machine does, is running it |
| Wirings.SolutionsAgree | rewrite/src/diagram2/meaning.rs:121-212 | a checked graph gives every port one value: two solutions agree everywhere |
| Wirings.MeaningIs | rewrite/src/diagram2/meaning.rs:121-212 | any assignment that solves the boxes says what the graph means |
| Graphs.Graph.Repoint | rewrite/src/diagram2/mod.rs:439-449 | a sink taken from one port to another leaves both ends of every link agreeing |
| Graphs.Graph.Add | rewrite/src/diagram2/mod.rs:451-466 | a box added with its links written at both ends |
| Graphs.Graph.Cut | rewrite/src/diagram2/rules.rs:698-772 | boxes gone with every link into them, and nothing else changed |
| Graphs.Graph.Splice | rewrite/src/diagram2/rules.rs:698-772 | the matched boxes out, the replacement in, the loose ends re-pointed, and the inverse match handed back, all links agreeing |
| Splices.SpliceSound | rewrite/src/diagram2/rules.rs:698-772 | everything read in the result is there, and every box has its kind's ports |
| Splices.SpliceMeans | rewrite/src/diagram2/rules.rs:698-772 | one side of a law for the other, anywhere it embeds, changes nothing the graph means |
| Laws.StructuralLawHolds | rewrite/src/diagram2/rules.rs:322-394 | every structural law's two sides mean the same however operations and calls are read |
| Laws.NotNotHolds | rewrite/src/diagram2/rules.rs:322-394 | `not ; not` is `as_bool` under the machine's reading |
| Laws.NotNotIsNotStructural | rewrite/src/diagram2/rules.rs:138-146 | and is not under every reading |
| Laws.ForwardStep | rewrite/src/diagram2/rules.rs:455-472 | a forward step of a structural law keeps links, acyclicity, interface and meaning |
| Steps.SameReaders | rewrite/src/diagram2/rules.rs:831-843 | true exactly when two lists hold the same readers equally often |
| Steps.CheckMatch | rewrite/src/diagram2/rules.rs:604-694 | accepts exactly the embeddings |
| Steps.Apply | rewrite/src/diagram2/rules.rs:455-472 | lands exactly when the match embeds, leaves the spliced graph and the inverse step, and otherwise changes nothing |
| Steps.UngroundedIsRead | rewrite/src/diagram2/rules.rs:733-738 | a backward match the check accepts although it names a source that is not there: the first box put in reads that source |
| Checking.Check | rewrite/src/diagram2/mod.rs:623-676 | accepts exactly the graphs with their kinds' ports, one fork and one select a branch, links agreeing at both ends and no feedback |
| Checking.CheckAcyclic | rewrite/src/diagram2/mod.rs:729-735 | the depth-first walk fails exactly on graphs in which some box feeds itself |
| Checking.StepThenCheck | rewrite/src/diagram2/rules.rs:455-472 | after any forward structural step, landed or refused, the check passes and the meaning is what it was |
| Derivations.InverseEmbeds | rewrite/src/diagram2/rules.rs:698-772 | the step handed back is a match of what went in |
| Derivations.RebasedEmbeds | rewrite/src/diagram2/rules.rs:539-565 | a match holds wherever its graph is renamed to, said again in the new names |
| Derivations.WalksHome | rewrite/src/diagram2/rules.rs:515-537 | one step undone under new names gives the graph it was taken from, renamed |
| Derivations.Derivation.Push | rewrite/src/diagram2/rules.rs:505-509 | any step, forward or backward, is recorded with its inverse if it lands, and changes nothing if not; a run of forward steps stays one that can be taken back |
| Derivations.ForwardReverses | rewrite/src/diagram2/rules.rs:455-472 | every forward step that lands, of any law, can be taken back |
| Derivations.Derivation.Undo | rewrite/src/diagram2/rules.rs:515-534 | of a run that can be taken back no inverse step is refused, and the graph ends where the run began, up to renaming, with links agreeing, and with no feedback and branch ends paired if it began so |
| Searches.FindAt | rewrite/src/diagram2/rules.rs:886-902 | everything found is an embedding from that box, and every one is found if the pattern pins its own match; for a pattern that does not, nothing is |
| Searches.PinsItself | rewrite/src/diagram2/rules.rs:907-916 | true exactly if there is a box to start from and the outputs are ports, each once |
| Searches.Search.Walk | rewrite/src/diagram2/rules.rs:930-942 | every way of placing the remaining boxes is tried, and the search is left exactly as it was found |
| Searches.Search.Try | rewrite/src/diagram2/rules.rs:935-941 | one host for one box: if the embedding sought has it there the embedding is found, and the search is left exactly as it was |
| Saturation.Propose | rewrite/src/diagram2/rules.rs:1118-1143 | proposes only steps at the box, and nothing only when no law can fire there |
| Saturation.Saturate | rewrite/src/diagram2/rules.rs:1154-1193 | terminates with meaning, links and branch ends kept and no law left to fire, the run being handed over |
| Saturation.NothingFires | rewrite/src/diagram2/rules.rs:1154-1193 | on a saturated graph no structural law embeds anywhere |
| Building.Build | rewrite/src/diagram2/mod.rs:501-508 | a checked graph with one reader a port that means what the term means |
| Building.Emit | rewrite/src/diagram2/mod.rs:512-583 | the boxes of one term added onto the sources of its inputs |
| Sorting.RoundsSort | rewrite/src/diagram2/mod.rs:1078-1091 | as many odd-even rounds as there are places sort any permutation |
| Routing.Duplicate | rewrite/src/diagram2/mod.rs:1123-1139 | one value made into any number of copies, none included |
| Routing.CopyLayer | rewrite/src/diagram2/mod.rs:1040-1060 | one row that gives every slot the number of copies it is wanted in |
| Routing.Cross | rewrite/src/diagram2/mod.rs:1078-1112 | the rounds of swaps, emitted as rows, take a stack to where a permutation says |
| Routing.Places | rewrite/src/diagram2/mod.rs:1062-1076 | every copy gets a place of its own that wants it |
| Routing.Route | rewrite/src/diagram2/mod.rs:1035-1120 | a stack of different sources is taken to exactly the wanted list, repeats and omissions included |
| Scheduling.Schedule | rewrite/src/diagram2/mod.rs:991-1027 | every live box exactly once, producers before what reads them, and at each turn the smallest id of those that could run |
| ReadBack.Hoist | rewrite/src/diagram2/mod.rs:966-986 | the deepest wire brought to the top, the others in order |
| ReadBack.BoxTerm | rewrite/src/diagram2/mod.rs:923-958 | the term of a box answers what the box answers, forks and selects included |
| ReadBack.ReadTermBack | rewrite/src/diagram2/mod.rs:844-920 | a well-formed term of the graph's arity and meaning |
| Rewriting.Rewrite | rewrite/src/diagram2/mod.rs:595-607 | built, rewritten to fixpoint and read back, a term is the same program under every reading and on the machine, and the graph in between passes the check; graph and run are handed over, ready to be taken back |
| Surface.RollsTurn | vm/src/lib.rs:2194-2231 | rolling k times at depth d brings the k deepest of d+1 values up in the order they lay |
| Surface.RollingAllTheWayRound | vm/src/lib.rs:2300-2315 | `(roll d)^(d+1)` is nothing, for every depth and stack |
| Surface.FramedIsRolled | vm/src/lib.rs:2317-2359 | framing a computation under d values and rolling its results up is rolling its operands up and computing |
| Surface.PickIsAFramedCopy | vm/src/lib.rs:2278-2298 | `pick d` is a copy made where the value lies, rolled up, on every stack |
| Emitting.RendersStays | bytecode/src/assembly.rs:1707-1713 | what compiled code renders it goes on rendering as blocks are added |
| Expansions.ReachRuns | bytecode/src/assembly.rs:1653-1667 | the nested frames for `pick d`, `roll d` and `drop d` perform the indexed operation wherever they stand |
| Expansions.BlockReaches | bytecode/src/assembly.rs:1671-1679 | a shared block performs its movement for every site that uses it |
| Expansions.FrameRuns | bytecode/src/assembly.rs:1687-1701 | the nested frames for `dip N` run the target below N values and put them back as they were |
| Balances.BodyNet | bytecode/src/arity.rs:100-135 | the net change written in the words is the net change the certificate gives, `?` included |
| Compiled.BodyMeans | bytecode/src/assembly.rs:1435-1535 | from any point of a compiled body on, a certified library does to every stack what the remaining words mean |
| Compiled.TryRuns | bytecode/src/assembly.rs:1564-1602 | the expansion of `?` goes on with the payload of a pair tagged ok, and otherwise takes the failing arm with the payload or the whole value |
| Compiled.FailRuns | bytecode/src/arity.rs:100-135 | the failing arm leaves one error and drops exactly its count of values from under it |
| Compiled.EarlyReturnsAsHighAsFinishing | bytecode/src/assembly.rs:1564-1602 | in a certified library a `?` drops exactly inputs minus outputs of the rest, so leaving and finishing leave the stack equally high |
| Drafts.PushedIsFine | bytecode/src/assembly.rs:1707-1713 | filing a block keeps everything filed, shared blocks and early returns included |
| Compiling.Compiler.ReachFor | bytecode/src/assembly.rs:1653-1667 | the code for a movement, in frames around the same movement one shallower |
| Compiling.Compiler.ReachBlock | bytecode/src/assembly.rs:1671-1679 | the block in the table for this movement and depth; asked for again it is the same and nothing is filed |
| Compiling.Compiler.FrameFor | bytecode/src/assembly.rs:1687-1701 | a chain of one-deep frames, the one in the table for this depth and target; asked for again nothing is filed |
| Compiling.Compiler.ResolveTarget | bytecode/src/assembly.rs:1715-1747 | a label resolves to its sentence, a block to the room kept for it, filled |
| Compiling.Compiler.CompileTry | bytecode/src/assembly.rs:1564-1602 | the four blocks of a `?` are filed and its two arms recorded last, the rest arm compiled with only the early returns recorded before it; an early return is recorded for each `?` and no other |
| Compiling.Compiler.CompileBody | bytecode/src/assembly.rs:1435-1535 | the code renders the words, branching to none but the early returns recorded on the way; these are one for each `?`, nested ones first, each with what follows it as its rest arm; nothing filed before is disturbed |
| EarlyReturns.NobodyCallsFail | bytecode/src/arity.rs:100-135 | while the arms of a `?` disagree, nothing any certificate covers calls the failing one |
| EarlyReturns.OthersStillAgree | bytecode/src/arity.rs:100-135 | finishing one early return unsettles none already finished |
| EarlyReturns.BalanceEarlyReturns | bytecode/src/arity.rs:100-135 | each early return whose rest arm has an arity at its turn is given exactly the drops that arm asks for, and its arms agree from then on; it fails only on a rest arm with a surplus |
| Assembling.CompileAll | bytecode/src/assembly.rs:1796-1823 | every named sentence compiled into the room kept for it |
| Assembling.Assemble | bytecode/src/assembly.rs:1774-1856 | a program, with any `?` and annotations, is accepted exactly if its words settle and the stack effects its library then has meet what is declared of its sentences; an accepted library runs as written, with the names and annotations given, and the machine keeps every annotation; a refused program has, at its turn, an early return whose rest arm has a surplus, or, with every early return given exactly the drops its rest arm asks for, no certificate that meets what is declared |
| Assembling.SettledIsCovered | bytecode/src/assembly.rs:1774-1856 | of words that settle no early return is refused at its turn, and with every turn taken all of what was compiled, shared blocks and failing arms included, has stack effects |
| Assembling.AnnotationsMean | bytecode/src/arity.rs:29-47 | the annotations are met exactly if each annotated sentence, on just the values declared and whichever arms are taken, leaves just what is declared |
| Accepting.TailReckons | bytecode/src/arity.rs:103-109 | at its turn a rest arm that takes more than it leaves has an arity: whatever it reaches has its drops by then |
| Accepting.CoverAll | bytecode/src/arity.rs:100-135 | with every turn taken named sentences, blocks and failing arms are covered by one certificate |
| Accepted.AcceptedSettles | bytecode/src/assembly.rs:1774-1856 | whatever is accepted settles: its branches change the height alike, its calls go down, no `?` is followed by a surplus, and an early return that has to drop reaches only such as come earlier |
| Settling.OrderedSettles | bytecode/src/assembly.rs:1774-1856 | level sentences that call only earlier ones settle, if nothing that follows a `?` leaves more than it takes |
| Settling.OrderMatters | bytecode/src/arity.rs:92-99 | two sentences, both with a `?` that has to drop, settle callee first and not the other way round: a rest arm that calls a later sentence is measured before that one has its drops |
| Assembling.MachineRunsAsWritten | vm/src/lib.rs:71-401 | on any stack deep enough the machine halts, without underflow, with the stack the written words mean |
| Assembling.FramedSentenceIsRolled | vm/src/lib.rs:2317-2359 | the framed-is-rolled law for every sentence of an assembled program, counted by its own arity |
| TypeChecks.SpecAnswers | bytecode/src/lower.rs:437-516 | the generated check replaces any value, on any stack, by exactly whether it matches the specification |
| TypeChecks.UnionAnswers | bytecode/src/lower.rs:518-547 | the check of a union answers whether some variant matches |
| TypeChecks.ElementsAnswer | bytecode/src/lower.rs:457-510 | the elements of a tuple are checked back to front in frames, and all must match |
| TypeChecks.ChecksSettle | bytecode/src/lower.rs:425-435 | checks that name each other in an order settle, so nothing but an annotation can refuse them |
| TypeChecks.CheckRuns | bytecode/src/lower.rs:425-435 | run on the machine, an assembled check leaves that answer and everything below it |
| RoundTrips.LiteralRead | rewrite/src/parse.rs:186-225 | a legible value, printed, is read back with what follows it untouched |
| RoundTrips.IntegersReadExactly | rewrite/src/parse.rs:294-301 | every integer prints and reads back, but for `i64::MIN` where the build checks overflow |
| RoundTrips.StringsReadExactly | rewrite/src/parse.rs:186-225 | whatever the host counts as printable, a string prints and reads back exactly when all its characters are printable and none is a quote, a backslash or one of the four named escapes |
| RoundTrips.FactorRead | rewrite/src/parse.rs:82-150 | a term in a factor's place is read back whole, parentheses and all |
| RoundTrips.SideRead | rewrite/src/parse.rs:68-80 | a term in the place of one side of `;` is read up to the next operator |
| RoundTrips.TermRead | rewrite/src/parse.rs:53-65 | a term at the top is read up to what closes it |
| RoundTrips.PrintedIsRead | rewrite/src/term.rs:794-833 | printing then parsing gives the identical tree, associativity and parentheses included |
| RoundTrips.PrintingTellsApart | rewrite/src/term.rs:794-833 | two readable terms printed alike are one tree |
| RoundTrips.SpacedIsRead | rewrite/src/parse.rs:42-150 | with any spaces before and after, and in parentheses nothing calls for, a printed term is read back the same |
| RoundTrips.NamedByTail | rewrite/src/parse.rs:239-277 | a path names a sentence exactly if it is that sentence's name or what follows a `::` in it, no other name has it so, and no earlier sentence has the same name |
| RoundTrips.CallByTail | rewrite/src/parse.rs:343-363 | a call written by any such tail of a name is read as the call to its sentence |
| Reading.ReadComposition | rewrite/src/parse.rs:53-65 | the loop over `;` builds in the arena the tree the text says, or refuses as the text says |
| Reading.ReadAtom | rewrite/src/parse.rs:82-150 | the same for one atom, parenthesized terms and branches included |
| Reading.ParseTerm | rewrite/src/parse.rs:42-49 | what is built is the well-formed tree the text says, and anything after the term is refused |

## Left out

- Engine.Ctx.Ite: bounded by a `fuel` parameter, because with a test against a literal the order that makes it terminate is lost; what is left unmodelled is a run past the bound. Where neither the condition nor any in the arms is such a test, as much fuel as there are nodes below the arms always gives an answer; between two leaves any fuel does.
- Normalize.NormalForm: gives no answer when the fuel of `ite` runs out, which takes a condition that tests against a literal and a second branch; the decided path is passed by value rather than pushed and popped on one list, which the results cannot tell apart.
- Strategies.Prover.RunSteps: the residual text, proof summaries and the narrowing that points at a difference claim nothing and are not modelled; a prover is only started on an accepted library, so lowering cannot fail inside it.
- Judge.OneDiagram: of terms whose instructions compute nothing says when the answer is no, beyond that a yes is right; the folds know some equations between operations and not others.
- Comebacks.ForgottenExactly: the exact condition is about every arena that may come; in one arena a wire with a literal beneath it may happen not to come back.
- Machine.VM.Execute: tracing, the wording of errors and the use of a machine after an error are not modelled.
- Arities.CheckArities: counts are unbounded where the code uses `i64`; the per-instruction table the pass also stores is not modelled, nor is the identity check that compares two net changes.
- Arities.Inference.InferInstructions: a branch grows the requirement once for condition and arms together, where the code does it in two phases with the same result.
- Assembling.Assemble: paths are already resolved to sentences and constants, and the two tags `?` reads are given; a missing tag or an unresolved path is an error of name resolution, which is not modelled. The stack effects that annotations are held against are those of the library, not worked out from the words.
- TypeChecks.SpecAnswers: a path to another sentence answers what that sentence answers, which is a hypothesis on the sentence.
- Steps.Apply: the check lets a backward match name boundary sources that are not there, and the code then panics as it puts in the box that reads one (`Steps.UngroundedIsRead`); the caller has to rule that out, and nothing else.
- Saturation.Saturate: the list of laws is the structural one, and the watching variant is not modelled.
- Derivations.Derivation.Undo: restores the graph up to renaming of boxes and with branch ids ignored, because undoing a dead fork mints a new id; a run with a backward step that puts a branch end in, or that hands one reader to two outputs, is outside it.
- Routing.Places: the choice of place is a function of the lists, and the order in which readers are listed is left unspecified.
- RoundTrips.PrintedIsRead: letters and spaces are the ASCII ones, and the layout over several lines is not modelled. Which characters the host prints as they are, and whether its build stops on overflow, are parameters.
- Wirings.MeaningIs: two graphs mean the same if no reading of operations and calls tells them apart, truth being the machine's; the symbolic comparison of rewrite/src/diagram2/meaning.rs, in which a choice between two equal values is not that value, is finer and is not part of this model.
- Graph patterns are values rather than graph objects, and ids are unbounded where the code has 32 bits.
- A symbol is its id; the path it prints as is a table beside it.
- Hash tables are finite maps, and hashing is not modelled.
- The folds of literal operands use the machine's own function for an instruction rather than a scratch machine.
- Structural recursion of `graft` is written once for `;` and once for `*` instead of over a closure.
- Tokenizing, source parsing, spans, modules, composer templates, enumerations, runtime and test environment, strategy files and pretty printing are not part of this model.
