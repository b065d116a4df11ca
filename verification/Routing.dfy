/** From one layout of a stack to another: a layer for the multiplicities, then rounds of crossings. */
module Routing {
  import opened Wrappers
  import opened Values
  import opened Prims
  import opened Terms
  import opened Spines
  import opened Wirings
  import opened Sorting

  // ---- rows read one after another ----

  ghost function ReadParts(parts: seq<Tree>, rd: Reading, s: seq<Value>): (r: seq<Value>)
    requires Chain(parts, |s|)
    ensures |r| == Width(parts, |s|)
  {
    if parts == [] then s else ReadParts(parts[1..], rd, ReadTerm(parts[0], rd, s))
  }

  lemma {:induction false} ReadsJoin(a: seq<Tree>, b: seq<Tree>, rd: Reading, s: seq<Value>)
    requires Chain(a + b, |s|)
    ensures Chain(a, |s|) && Chain(b, Width(a, |s|))
    ensures ReadParts(a + b, rd, s) == ReadParts(b, rd, ReadParts(a, rd, s))
    decreases |a|
  {
    ChainsJoin(a, b, |s|);
    if a == [] {
      assert a + b == b;
    } else {
      assert (a + b)[1..] == a[1..] + b;
      ReadsJoin(a[1..], b, rd, ReadTerm(a[0], rd, s));
    }
  }

  lemma ReadsOne(t: Tree, rd: Reading, s: seq<Value>)
    requires t.Ok() && |s| == t.Effect().inputs
    ensures Chain([t], |s|) && Width([t], |s|) == t.Effect().outputs && ReadParts([t], rd, s) == ReadTerm(t, rd, s)
  {
    assert [t][1..] == [];
  }

  /** One term that takes one layout of values to another, however operations are read. */
  ghost predicate Takes(t: Tree, have: seq<Source>, want: seq<Source>) {
    && t.Ok() && t.Effect() == Arity(|have|, |want|)
    && forall rd: Reading, v: Valuation :: ReadTerm(t, rd, ValuesOf(v, have)) == ValuesOf(v, want)
  }

  /** The same for rows, one after another. */
  ghost predicate Routes(rows: seq<Tree>, have: seq<Source>, want: seq<Source>) {
    && Chain(rows, |have|) && Width(rows, |have|) == |want|
    && forall rd: Reading, v: Valuation :: ReadParts(rows, rd, ValuesOf(v, have)) == ValuesOf(v, want)
  }

  lemma RoutesNone(s: seq<Source>)
    ensures Routes([], s, s)
  {
  }

  lemma RoutesMore(rows: seq<Tree>, t: Tree, a: seq<Source>, b: seq<Source>, c: seq<Source>)
    requires Routes(rows, a, b) && Takes(t, b, c)
    ensures Routes(rows + [t], a, c)
  {
    hide ReadTerm; hide Tree.Ok; hide Tree.Effect;
    ReadsOne(t, Reading(imap[], imap[]), ValuesOf(imap[], b));
    ChainsJoin(rows, [t], |a|);
    forall rd: Reading, v: Valuation ensures ReadParts(rows + [t], rd, ValuesOf(v, a)) == ValuesOf(v, c) {
      ReadsJoin(rows, [t], rd, ValuesOf(v, a));
      ReadsOne(t, rd, ValuesOf(v, b));
    }
  }

  lemma ReadsBeside(a: Tree, b: Tree, rd: Reading, x: seq<Value>, y: seq<Value>)
    requires a.Ok() && b.Ok() && |x| == a.Effect().inputs && |y| == b.Effect().inputs
    ensures ReadTerm(Tree.Par(a, b), rd, x + y) == ReadTerm(a, rd, x) + ReadTerm(b, rd, y)
  {
    assert (x + y)[..|x|] == x && (x + y)[|x|..] == y;
  }

  lemma ValuesBeside(v: Valuation, a: seq<Source>, b: seq<Source>)
    ensures ValuesOf(v, a + b) == ValuesOf(v, a) + ValuesOf(v, b)
  {
  }

  lemma TakesBeside(a: Tree, b: Tree, x: seq<Source>, y: seq<Source>, xs: seq<Source>, ys: seq<Source>)
    requires Takes(a, x, xs) && Takes(b, y, ys)
    ensures Takes(Tree.Par(a, b), x + y, xs + ys)
  {
    hide ReadTerm; hide Tree.Ok; hide Tree.Effect;
    ParShape(a, b);
    forall rd: Reading, v: Valuation ensures ReadTerm(Tree.Par(a, b), rd, ValuesOf(v, x + y)) == ValuesOf(v, xs + ys) {
      ValuesBeside(v, x, y);
      ValuesBeside(v, xs, ys);
      ReadsBeside(a, b, rd, ValuesOf(v, x), ValuesOf(v, y));
    }
  }

  lemma TakesThrough(x: Source)
    ensures Takes(Tree.Id(1), [x], [x])
  {
  }

  lemma TakesAway(x: Source)
    ensures Takes(Tree.Drop(1), [x], [])
  {
  }

  lemma TakesTwice(x: Source)
    ensures Takes(Tree.Copy(1), [x], [x, x])
  {
    forall v: Valuation ensures ValuesOf(v, [x]) + ValuesOf(v, [x]) == ValuesOf(v, [x, x]) {
    }
  }

  lemma TakesAcross(x: Source, y: Source)
    ensures Takes(Tree.Op(Prim.Swap), [x, y], [y, x])
  {
    forall rd: Reading, v: Valuation
      ensures ReadTerm(Tree.Op(Prim.Swap), rd, ValuesOf(v, [x, y])) == ValuesOf(v, [y, x])
    {
    }
  }

  lemma TakesWidened(t: Tree, x: seq<Source>, y: seq<Source>, under: seq<Source>)
    requires Takes(t, x, y)
    ensures Takes(Widened(t, |under|), under + x, under + y)
  {
    if under == [] {
      assert under + x == x && under + y == y;
    } else {
      assert Takes(Tree.Id(|under|), under, under);
      TakesBeside(Tree.Id(|under|), t, under, x, under, y);
    }
  }

  lemma TakesThen(a: Tree, b: Tree, x: seq<Source>, y: seq<Source>, z: seq<Source>)
    requires Takes(a, x, y) && Takes(b, y, z)
    ensures Takes(Tree.Compose(a, b), x, z)
  {
    ComposeShape(a, b);
  }

  // ---- the copy layer ----

  function Copies<T>(x: T, k: nat): (r: seq<T>)
    ensures |r| == k && forall i | 0 <= i < k :: r[i] == x
  {
    seq(k, i => x)
  }

  /** A term from one value to `k` of it. */
  method Duplicate(terms: Context, k: nat) returns (i: TermIndex)
    requires terms.Valid()
    modifies terms
    ensures terms.Grew() && terms.Has(i) && forall x: Source :: Takes(terms.At(i), [x], Copies(x, k))
  {
    hide Takes; hide TreeAt; hide Ordered; hide Tree.Effect; hide Tree.Ok;
    match k {
      case 0 =>
        i := terms.Push(Term.Drop(1));
        forall x: Source ensures Takes(terms.At(i), [x], Copies(x, 0)) {
          TakesAway(x);
          assert Copies(x, 0) == [];
        }
      case 1 =>
        i := terms.Push(Term.Id(1));
        forall x: Source ensures Takes(terms.At(i), [x], Copies(x, 1)) {
          TakesThrough(x);
          assert Copies(x, 1) == [x];
        }
      case _ =>
        i := terms.Push(Term.Copy(1));
        forall x: Source ensures Takes(terms.At(i), [x], Copies(x, 2)) {
          TakesTwice(x);
          assert Copies(x, 2) == [x, x];
        }
        for held := 2 to k
          invariant terms.Grew() && terms.Has(i) && forall x: Source :: Takes(terms.At(i), [x], Copies(x, held))
        {
          i := OneMore(terms, i, held);
        }
    }
  }

  /** One more link of the chain: the top copy copied again. */
  method OneMore(terms: Context, chain: TermIndex, held: nat) returns (i: TermIndex)
    requires terms.Valid() && terms.Has(chain) && held >= 2 && forall x: Source ::
      Takes(terms.At(chain), [x], Copies(x, held))
    modifies terms
    ensures terms.Grew() && terms.Has(i) && forall x: Source :: Takes(terms.At(i), [x], Copies(x, held + 1))
  {
    hide TreeAt; hide Ordered; hide Tree.Effect; hide Tree.Ok; hide ReadTerm;
    var more := terms.Push(Term.Copy(1));
    var step := terms.Under(more, held - 1);
    ghost var link := Widened(Tree.Copy(1), held - 1);
    forall x: Source ensures Takes(link, Copies(x, held), Copies(x, held + 1)) {
      TakesTwice(x);
      TakesWidened(Tree.Copy(1), [x], [x, x], Copies(x, held - 1));
      assert Copies(x, held - 1) + [x] == Copies(x, held) && Copies(x, held - 1) + [x, x] == Copies(x, held + 1);
    }
    ghost var some := Input(0);
    assert Takes(terms.At(chain), [some], Copies(some, held))
      && Takes(link, Copies(some, held), Copies(some, held + 1));
    var made := terms.Compose(chain, step);
    i := made.value;
    forall x: Source ensures Takes(terms.At(i), [x], Copies(x, held + 1)) {
      TakesThen(old(terms.At(chain)), link, [x], Copies(x, held), Copies(x, held + 1));
    }
  }

  /** Each member repeated as often as it is wanted. */
  function Spread<T>(s: seq<T>, copies: seq<nat>): seq<T>
    requires |s| == |copies|
  {
    if s == [] then [] else Spread(s[..|s| - 1], copies[..|s| - 1]) + Copies(s[|s| - 1], copies[|s| - 1])
  }

  lemma SpreadMore<T>(s: seq<T>, copies: seq<nat>, k: nat)
    requires |s| == |copies| && k < |s|
    ensures s[..k + 1] == s[..k] + [s[k]]
    ensures Spread(s[..k + 1], copies[..k + 1]) == Spread(s[..k], copies[..k]) + Copies(s[k], copies[k])
  {
    assert s[..k + 1][..k] == s[..k] && copies[..k + 1][..k] == copies[..k];
  }

  lemma SpreadNothing<T>()
    ensures Spread<T>([], []) == []
  {
  }

  /** Two factors side by side, the first of them if there is one already. */
  method Beside(terms: Context, layer: Option<TermIndex>, factor: TermIndex) returns (i: TermIndex)
    requires terms.Valid() && terms.Has(factor) && (layer.Some? ==> terms.Has(layer.value))
    modifies terms
    ensures terms.Grew() && terms.Has(i)
    ensures terms.At(i) == if layer.Some?
      then Tree.Par(old(terms.At(layer.value)), old(terms.At(factor))) else old(terms.At(factor))
  {
    if layer.None? {
      return factor;
    }
    i := terms.Push(Term.Par(layer.value, factor));
  }

  /** A layer so far: nothing yet, or a term from the sources covered so far to what they become. */
  ghost predicate Covers(terms: Context, layer: Option<TermIndex>, have: seq<Source>, want: seq<Source>)
    reads terms
    requires terms.Valid()
  {
    match layer
    case None => have == [] && want == []
    case Some(i) => terms.Has(i) && Takes(terms.At(i), have, want)
  }

  /** One factor per slot: the row that gets the multiplicities right. */
  method CopyLayer(terms: Context, have: seq<Source>, copies: seq<nat>) returns (layer: Option<TermIndex>)
    requires terms.Valid() && |have| == |copies|
    modifies terms
    ensures terms.Grew() && Covers(terms, layer, have, Spread(have, copies))
  {
    hide Takes; hide TreeAt; hide Ordered; hide Spread; hide Copies; hide Tree.Ok; hide Tree.Effect;
    SpreadNothing<Source>();
    layer := None;
    for k := 0 to |copies|
      invariant terms.Grew() && Covers(terms, layer, have[..k], Spread(have[..k], copies[..k]))
    {
      var factor := Duplicate(terms, copies[k]);
      ghost var t, f := (if layer.Some? then terms.At(layer.value) else Tree.Id(0)), terms.At(factor);
      assert Takes(f, [have[k]], Copies(have[k], copies[k]));
      var i := Beside(terms, layer, factor);
      SpreadMore(have, copies, k);
      if layer.Some? {
        TakesBeside(t, f, have[..k], [have[k]], Spread(have[..k], copies[..k]), Copies(have[k], copies[k]));
      } else {
        assert [] + Copies(have[k], copies[k]) == Copies(have[k], copies[k]) && [] + [have[k]] == [have[k]];
      }
      layer := Some(i);
    }
    assert have[..|have|] == have && copies[..|copies|] == copies;
  }

  // ---- the permutation layers ----

  /** The pairs one round will cross. */
  method Crossings(places: seq<nat>, round: nat) returns (crossings: set<nat>)
    ensures forall i: nat :: i in crossings <==> Crosses(places, round, i)
  {
    crossings := {};
    var i := round % 2;
    while i + 1 < |places|
      invariant i % 2 == round % 2
      invariant forall k: nat :: k in crossings <==> k < i && Crosses(places, round, k)
      decreases |places| - i
    {
      if places[i] > places[i + 1] {
        crossings := crossings + {i};
      }
      i := i + 2;
    }
  }

  /** The places with those pairs swapped, one after another. */
  method SwapPlaces(places: seq<nat>, round: nat, crossings: set<nat>) returns (swapped: seq<nat>)
    requires forall i: nat :: i in crossings <==> Crosses(places, round, i)
    ensures swapped == Round(places, round, places)
  {
    swapped := places;
    var i := 0;
    while i < |places|
      invariant 0 <= i && |swapped| == |places| && !Crosses(places, round, i - 1)
      invariant forall p: nat | p < |places| ::
        swapped[p] == if p < i then RoundAt(places, round, places, p) else places[p]
      decreases |places| - i
    {
      if i in crossings {
        swapped := swapped[i := swapped[i + 1]][i + 1 := swapped[i]];
        i := i + 2;
      } else {
        i := i + 1;
      }
    }
  }

  /** A round as a row: a swap for each crossing, a wire for everything between. */
  method CrossLayer(terms: Context, places: seq<nat>, round: nat, crossings: set<nat>, ghost s: seq<Source>)
    returns (layer: Option<TermIndex>)
    requires terms.Valid() && |s| == |places| && forall i: nat :: i in crossings <==> Crosses(places, round, i)
    modifies terms
    ensures terms.Grew() && Covers(terms, layer, s, Round(places, round, s))
  {
    hide Takes; hide TreeAt; hide Ordered; hide Tree.Effect; hide Tree.Ok; hide ReadTerm;
    layer := None;
    ghost var crossed := Round(places, round, s);
    var slot: nat := 0;
    while slot < |places|
      invariant slot <= |places| && !Crosses(places, round, slot - 1)
      invariant terms.Grew() && Covers(terms, layer, s[..slot], crossed[..slot])
      decreases |places| - slot
    {
      var wide: nat := if slot in crossings then 2 else 1;
      var factor;
      if slot in crossings {
        factor := terms.Push(Term.Op(Prim.Swap));
      } else {
        factor := terms.Push(Term.Id(1));
      }
      FactorTakes(places, round, s, slot, terms.At(factor));
      ghost var t, f := (if layer.Some? then terms.At(layer.value) else Tree.Id(0)), terms.At(factor);
      var i := Beside(terms, layer, factor);
      assert s[..slot + wide] == s[..slot] + s[slot..slot + wide];
      assert crossed[..slot + wide] == crossed[..slot] + crossed[slot..slot + wide];
      if layer.Some? {
        TakesBeside(t, f, s[..slot], s[slot..slot + wide], crossed[..slot], crossed[slot..slot + wide]);
      }
      layer := Some(i);
      slot := slot + wide;
    }
    assert s[..|s|] == s && crossed[..|s|] == crossed;
  }

  /** One factor of a row does to its slots what the round does to them. */
  lemma FactorTakes(places: seq<nat>, round: nat, s: seq<Source>, slot: nat, t: Tree)
    requires |s| == |places| && slot < |places| && !Crosses(places, round, slot - 1)
    requires t == if Crosses(places, round, slot) then Tree.Op(Prim.Swap) else Tree.Id(1)
    ensures var wide: nat := if Crosses(places, round, slot) then 2 else 1;
      slot + wide <= |places| && !Crosses(places, round, slot + wide - 1)
      && Takes(t, s[slot..slot + wide], Round(places, round, s)[slot..slot + wide])
  {
    hide Takes;
    var crossed := Round(places, round, s);
    if Crosses(places, round, slot) {
      TakesAcross(s[slot], s[slot + 1]);
      assert s[slot..slot + 2] == [s[slot], s[slot + 1]] && crossed[slot..slot + 2] == [s[slot + 1], s[slot]];
    } else {
      TakesThrough(s[slot]);
      assert s[slot..slot + 1] == [s[slot]] && crossed[slot..slot + 1] == [s[slot]];
    }
  }

  /** A round with nothing to cross leaves everything where it is. */
  lemma StillRound<T>(places: seq<nat>, round: nat, s: seq<T>)
    requires |s| == |places| && forall i: nat :: !Crosses(places, round, i)
    ensures Round(places, round, s) == s
  {
  }

  /** What lies along the places goes where the places go. */
  lemma RoundFollows(places: seq<nat>, round: nat, s: seq<Source>, want: seq<Source>)
    requires |s| == |places| == |want| && forall p | 0 <= p < |places| :: places[p] < |want| && want[places[p]] == s[p]
    ensures var after := Round(places, round, places);
      forall p | 0 <= p < |places| :: after[p] < |want| && want[after[p]] == Round(places, round, s)[p]
  {
  }

  /** The rows so far, as places in an arena and as the trees they are. */
  ghost predicate Rows(terms: Context, steps: seq<TermIndex>, rows: seq<Tree>)
    reads terms
    requires terms.Valid()
  {
    Names(terms.terms, steps, rows)
  }

  /** The rounds: whatever lies along a permutation's places is taken to where the permutation says. */
  method Cross(terms: Context, start: seq<nat>, ghost have: seq<Source>, ghost want: seq<Source>)
    returns (steps: seq<TermIndex>, ghost rows: seq<Tree>)
    requires terms.Valid() && Permutation(start) && |have| == |start| == |want|
    requires forall p | 0 <= p < |start| :: start[p] < |want| && want[start[p]] == have[p]
    modifies terms
    ensures terms.Grew() && Rows(terms, steps, rows) && Routes(rows, have, want)
  {
    hide Takes; hide TreeAt; hide Ordered; hide Routes; hide Permutation; hide Rounds; hide Tree.Ok;
    hide Tree.Effect; hide ReadTerm;
    var places := start;
    steps, rows := [], [];
    ghost var s := have;
    RoutesNone(have);
    RoundsStep(start, 0);
    for round: nat := 0 to |start|
      invariant terms.Grew() && places == Rounds(start, round) && |s| == |start|
      invariant forall p | 0 <= p < |places| :: places[p] < |want| && want[places[p]] == s[p]
      invariant Rows(terms, steps, rows) && Routes(rows, have, s)
    {
      var crossings := Crossings(places, round);
      RoundsStep(start, round);
      RoundFollows(places, round, s, want);
      if crossings == {} {
        StillRound(places, round, s);
        StillRound(places, round, places);
        continue;
      }
      ghost var (was, next) := (terms.terms, Round(places, round, s));
      var layer := CrossLayer(terms, places, round, crossings, s);
      places := SwapPlaces(places, round, crossings);
      NamesStay(was, terms.terms, steps, rows);
      RoutesMore(rows, terms.At(layer.value), have, s, next);
      NamesJoin(terms.terms, steps, [layer.value], rows, [terms.At(layer.value)]);
      steps, rows, s := steps + [layer.value], rows + [terms.At(layer.value)], next;
    }
    RoundsSort(start);
    assert s == want;
  }

  // ---- where each copy has to end up ----

  ghost predicate AllDifferent(s: seq<Source>) {
    forall i, j | 0 <= i < j < |s| :: s[i] != s[j]
  }

  /** How often a source is wanted. */
  method CountOf(want: seq<Source>, src: Source) returns (n: nat)
    ensures n == multiset(want)[src]
  {
    n := 0;
    for i := 0 to |want|
      invariant n == multiset(want[..i])[src]
    {
      assert want[..i + 1] == want[..i] + [want[i]];
      if want[i] == src {
        n := n + 1;
      }
    }
    assert want[..|want|] == want;
  }

  lemma {:induction false} CopiesCount(x: Source, k: nat, y: Source)
    ensures multiset(Copies(x, k))[y] == if x == y then k else 0
  {
    if k > 0 {
      assert Copies(x, k) == Copies(x, k - 1) + [x];
      CopiesCount(x, k - 1, y);
    } else {
      assert Copies(x, 0) == [];
    }
  }

  lemma {:induction false} SpreadCount(s: seq<Source>, copies: seq<nat>, x: Source)
    requires |s| == |copies| && AllDifferent(s)
    ensures x !in s ==> multiset(Spread(s, copies))[x] == 0
    ensures forall j | 0 <= j < |s| && s[j] == x :: multiset(Spread(s, copies))[x] == copies[j]
  {
    if s != [] {
      var last := |s| - 1;
      SpreadCount(s[..last], copies[..last], x);
      CopiesCount(s[last], copies[last], x);
      assert s == s[..last] + [s[last]];
      assert multiset(Spread(s, copies))
        == multiset(Spread(s[..last], copies[..last])) + multiset(Copies(s[last], copies[last]));
      assert s[last] !in s[..last];
    }
  }

  /** The copy layer makes exactly what is wanted, in some order. */
  lemma SpreadIsWanted(have: seq<Source>, want: seq<Source>, copies: seq<nat>)
    requires AllDifferent(have) && (forall x | x in want :: x in have) && |copies| == |have|
    requires forall j | 0 <= j < |have| :: copies[j] == multiset(want)[have[j]]
    ensures multiset(Spread(have, copies)) == multiset(want) && |Spread(have, copies)| == |want|
  {
    var made := Spread(have, copies);
    forall x ensures multiset(made)[x] == multiset(want)[x] {
      SpreadCount(have, copies, x);
      if x in have {
        var j :| 0 <= j < |have| && have[j] == x;
      } else {
        assert x !in multiset(want);
      }
    }
    assert multiset(made) == multiset(want);
    assert |multiset(made)| == |made| && |multiset(want)| == |want|;
  }

  lemma {:induction false} SpreadOnce(s: seq<Source>, copies: seq<nat>)
    requires |s| == |copies| && forall j | 0 <= j < |copies| :: copies[j] == 1
    ensures Spread(s, copies) == s
  {
    if s != [] {
      SpreadOnce(s[..|s| - 1], copies[..|s| - 1]);
      assert Copies(s[|s| - 1], 1) == [s[|s| - 1]];
    }
  }

  /** The wanted sources at slots that are taken. */
  ghost function Filled(want: seq<Source>, taken: seq<bool>): multiset<Source>
    requires |want| == |taken|
  {
    if want == [] then multiset{}
    else
      Filled(want[..|want| - 1], taken[..|want| - 1]) + if taken[|want| - 1]
        then multiset{want[|want| - 1]} else multiset{}
  }

  lemma {:induction false} NoneFilled(want: seq<Source>, taken: seq<bool>)
    requires |want| == |taken| && forall i | 0 <= i < |taken| :: !taken[i]
    ensures Filled(want, taken) == multiset{}
  {
    if want != [] {
      NoneFilled(want[..|want| - 1], taken[..|want| - 1]);
    }
  }

  /** While a source is wanted more often than its slots are taken, one of its slots is free. */
  lemma {:induction false} FreeIfShort(want: seq<Source>, taken: seq<bool>, x: Source)
    requires |want| == |taken| && Filled(want, taken)[x] < multiset(want)[x]
    ensures exists i :: 0 <= i < |want| && !taken[i] && want[i] == x
  {
    if want != [] {
      var last := |want| - 1;
      assert want == want[..last] + [want[last]];
      if taken[last] || want[last] != x {
        FreeIfShort(want[..last], taken[..last], x);
        var i :| 0 <= i < last && !taken[..last][i] && want[..last][i] == x;
        assert !taken[i] && want[i] == x;
      }
    }
  }

  lemma {:induction false} FilledGrows(want: seq<Source>, taken: seq<bool>, slot: nat)
    requires |want| == |taken| && slot < |want| && !taken[slot]
    ensures Filled(want, taken[slot := true]) == Filled(want, taken) + multiset{want[slot]}
  {
    var last := |want| - 1;
    if slot < last {
      FilledGrows(want[..last], taken[..last], slot);
      assert taken[slot := true][..last] == taken[..last][slot := true];
    } else {
      assert taken[slot := true][..last] == taken[..last];
    }
  }

  /** The first slot nothing has taken that wants this source. */
  method FreeSlot(want: seq<Source>, taken: seq<bool>, src: Source) returns (slot: nat)
    requires |want| == |taken| && exists i :: 0 <= i < |want| && !taken[i] && want[i] == src
    ensures slot < |want| && !taken[slot] && want[slot] == src
  {
    slot := 0;
    while taken[slot] || want[slot] != src
      invariant slot < |want|
      invariant forall i | 0 <= i < slot :: taken[i] || want[i] != src
      decreases |want| - slot
    {
      ghost var i :| 0 <= i < |want| && !taken[i] && want[i] == src;
      assert i > slot;
      slot := slot + 1;
    }
  }

  /** Until every copy has a slot, some slot that wants the next one is free. */
  lemma SlotLeft(spread: seq<Source>, want: seq<Source>, taken: seq<bool>, k: nat)
    requires multiset(spread) == multiset(want) && |taken| == |want| && k < |spread|
    requires Filled(want, taken) == multiset(spread[..k])
    ensures exists i :: 0 <= i < |want| && !taken[i] && want[i] == spread[k]
  {
    hide Filled;
    var before, after := spread[..k], spread[k + 1..];
    assert spread == before + [spread[k]] + after;
    assert multiset(spread) == multiset(before) + multiset{spread[k]} + multiset(after);
    FreeIfShort(want, taken, spread[k]);
  }

  /** Where each member of the spread has to end up: a slot of its own that wants it. */
  method Places(spread: seq<Source>, want: seq<Source>) returns (places: seq<nat>)
    requires multiset(spread) == multiset(want) && |spread| == |want|
    ensures |places| == |want| && Permutation(places)
    ensures forall p | 0 <= p < |places| :: places[p] < |want| && want[places[p]] == spread[p]
  {
    hide Filled;
    var taken: seq<bool> := seq(|want|, i => false);
    places := [];
    NoneFilled(want, taken);
    for k := 0 to |spread|
      invariant |places| == k && |taken| == |want| && Filled(want, taken) == multiset(spread[..k])
      invariant forall p | 0 <= p < k :: places[p] < |want| && want[places[p]] == spread[p] && taken[places[p]]
      invariant forall i, j | 0 <= i < j < k :: places[i] != places[j]
    {
      SlotLeft(spread, want, taken, k);
      assert spread[..k + 1] == spread[..k] + [spread[k]];
      var slot := FreeSlot(want, taken, spread[k]);
      FilledGrows(want, taken, slot);
      taken := taken[slot := true];
      places := places + [slot];
    }
  }

  /** How often each source is wanted. */
  method CopyCounts(have: seq<Source>, want: seq<Source>) returns (copies: seq<nat>)
    ensures |copies| == |have| && forall j | 0 <= j < |have| :: copies[j] == multiset(want)[have[j]]
  {
    copies := [];
    for j := 0 to |have|
      invariant |copies| == j && forall k | 0 <= k < j :: copies[k] == multiset(want)[have[k]]
    {
      var n := CountOf(want, have[j]);
      copies := copies + [n];
    }
  }

  /** The copy layer, where anything is wanted other than once. */
  method CopyRow(terms: Context, have: seq<Source>, copies: seq<nat>)
    returns (steps: seq<TermIndex>, ghost rows: seq<Tree>)
    requires terms.Valid() && |have| == |copies|
    modifies terms
    ensures terms.Grew() && Rows(terms, steps, rows) && Routes(rows, have, Spread(have, copies))
  {
    hide Takes; hide TreeAt; hide Ordered; hide Routes; hide Spread;
    steps, rows := [], [];
    RoutesNone(have);
    if exists j :: 0 <= j < |copies| && copies[j] != 1 {
      var layer := CopyLayer(terms, have, copies);
      assert layer.Some?;
      RoutesMore([], terms.At(layer.value), have, have, Spread(have, copies));
      assert [] + [terms.At(layer.value)] == [terms.At(layer.value)];
      steps, rows := [layer.value], [terms.At(layer.value)];
    } else {
      SpreadOnce(have, copies);
    }
  }

  /** A layer of copies and rounds of swaps that turn `have`, without repeats, into any list of its members. */
  method Route(terms: Context, have: seq<Source>, want: seq<Source>)
    returns (steps: seq<TermIndex>, ghost rows: seq<Tree>)
    requires terms.Valid() && AllDifferent(have) && forall x | x in want :: x in have
    modifies terms
    ensures terms.Grew() && Rows(terms, steps, rows) && Routes(rows, have, want)
  {
    hide Takes; hide TreeAt; hide Ordered; hide Routes; hide Permutation; hide AllDifferent; hide Spread;
    var copies := CopyCounts(have, want);
    SpreadIsWanted(have, want, copies);
    var spread := Spread(have, copies);
    steps, rows := CopyRow(terms, have, copies);
    var places := Places(spread, want);
    ghost var was := terms.terms;
    var crossed;
    ghost var crossing;
    crossed, crossing := Cross(terms, places, spread, want);
    NamesStay(was, terms.terms, steps, rows);
    NamesJoin(terms.terms, steps, crossed, rows, crossing);
    RoutesJoin(rows, crossing, have, spread, want);
    steps, rows := steps + crossed, rows + crossing;
  }

  lemma RoutesJoin(x: seq<Tree>, y: seq<Tree>, a: seq<Source>, b: seq<Source>, c: seq<Source>)
    requires Routes(x, a, b) && Routes(y, b, c)
    ensures Routes(x + y, a, c)
  {
    ChainsJoin(x, y, |a|);
    forall rd: Reading, v: Valuation ensures ReadParts(x + y, rd, ValuesOf(v, a)) == ValuesOf(v, c) {
      ReadsJoin(x, y, rd, ValuesOf(v, a));
    }
  }
}
