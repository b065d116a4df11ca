/** Odd-even transposition: a round swaps neighbours that are out of order, and `n` rounds sort `n` places. */
module Sorting {

  /** A pair of neighbours a round looks at, and finds out of order. */
  predicate Crosses(places: seq<nat>, round: nat, i: int) {
    0 <= i && i + 1 < |places| && i % 2 == round % 2 && places[i] > places[i + 1]
  }

  function RoundAt<T>(places: seq<nat>, round: nat, s: seq<T>, p: nat): T
    requires |s| == |places| && p < |s|
  {
    if Crosses(places, round, p) then s[p + 1] else if Crosses(places, round, p - 1) then s[p - 1] else s[p]
  }

  /** Anything laid out along the places, after a round. */
  function Round<T>(places: seq<nat>, round: nat, s: seq<T>): (r: seq<T>)
    requires |s| == |places|
    ensures |r| == |s|
  {
    seq(|s|, (p: nat) requires p < |s| => RoundAt(places, round, s, p))
  }

  /** The places after the first `n` rounds. */
  function Rounds(places: seq<nat>, n: nat): (r: seq<nat>)
    ensures |r| == |places|
  {
    if n == 0 then places else Round(Rounds(places, n - 1), n - 1, Rounds(places, n - 1))
  }

  lemma RoundsStep(places: seq<nat>, n: nat)
    ensures Rounds(places, 0) == places
    ensures Rounds(places, n + 1) == Round(Rounds(places, n), n, Rounds(places, n))
  {
  }

  // ---- how many large values lie from a place on ----

  ghost function Beyond(places: seq<nat>, t: nat, p: nat): nat
    decreases |places| - p
  {
    if p >= |places| then 0 else (if places[p] >= t then 1 else 0) + Beyond(places, t, p + 1)
  }

  lemma {:induction false} BeyondBounds(places: seq<nat>, t: nat, p: nat)
    requires p <= |places|
    ensures Beyond(places, t, p) <= |places| - p
    ensures Beyond(places, t, 0) <= Beyond(places, t, p) + p
    ensures Beyond(places, t, p) <= Beyond(places, t, 0)
    decreases |places| - p
  {
    if p < |places| {
      BeyondBounds(places, t, p + 1);
      BeyondSoFar(places, t, p);
    } else {
      BeyondSoFar(places, t, p);
    }
  }

  lemma {:induction false} BeyondSoFar(places: seq<nat>, t: nat, p: nat)
    requires p <= |places|
    ensures Beyond(places, t, p) <= Beyond(places, t, 0) <= Beyond(places, t, p) + p
    decreases p
  {
    if p > 0 {
      BeyondSoFar(places, t, p - 1);
    }
  }

  /** Inside a pair the count becomes the lesser of its neighbours'; at the edge of one it stays. */
  lemma {:induction false} RoundCounts(places: seq<nat>, round: nat, t: nat, p: nat)
    requires p <= |places|
    ensures var after := Round(places, round, places);
      Beyond(after, t, p) ==
        if 0 < p < |places| && (p - 1) % 2 == round % 2 then
          (if Beyond(places, t, p - 1) <= Beyond(places, t, p + 1)
            then Beyond(places, t, p - 1) else Beyond(places, t, p + 1) + 1)
        else Beyond(places, t, p)
    decreases |places| - p
  {
    if p < |places| {
      RoundCounts(places, round, t, p + 1);
      if p + 1 < |places| {
        RoundCounts(places, round, t, p + 2);
      }
    }
  }

  /** How far the values of at least `t` are sure to have got after `round` rounds. */
  ghost predicate Advanced(places: seq<nat>, t: nat, round: nat) {
    forall p: nat | p <= |places| :: AdvancedAt(places, t, round, p)
  }

  ghost predicate AdvancedAt(places: seq<nat>, t: nat, round: nat, p: nat) {
    var all := Beyond(places, t, 0);
    var here := Beyond(places, t, p);
    here >= all || here >= |places| - p || 2 * here + 1 >= all + all % 2 + round - p
  }

  lemma AdvancedAtFirst(places: seq<nat>, t: nat)
    ensures Advanced(places, t, 0)
  {
    forall p: nat | p <= |places| ensures AdvancedAt(places, t, 0, p) {
      BeyondBounds(places, t, p);
    }
  }

  lemma RoundAdvances(places: seq<nat>, t: nat, round: nat)
    requires Advanced(places, t, round)
    ensures Advanced(Round(places, round, places), t, round + 1)
    ensures Beyond(Round(places, round, places), t, 0) == Beyond(places, t, 0)
  {
    RoundCounts(places, round, t, 0);
    var after, next := Round(places, round, places), round + 1;
    forall p: nat | p <= |places| ensures AdvancedAt(after, t, next, p) {
      PlaceAdvances(places, t, round, p);
    }
  }

  lemma PlaceAdvances(places: seq<nat>, t: nat, round: nat, p: nat)
    requires Advanced(places, t, round) && p <= |places|
    ensures AdvancedAt(Round(places, round, places), t, round + 1, p)
  {
    hide Beyond;
    RoundCounts(places, round, t, 0);
    RoundCounts(places, round, t, p);
    BeyondBounds(places, t, p);
    assert AdvancedAt(places, t, round, p);
    if 0 < p < |places| && (p - 1) % 2 == round % 2 {
      assert AdvancedAt(places, t, round, p - 1);
      assert AdvancedAt(places, t, round, p + 1);
    }
  }

  lemma {:induction false} RoundsAdvance(places: seq<nat>, t: nat, n: nat)
    ensures Advanced(Rounds(places, n), t, n) && Beyond(Rounds(places, n), t, 0) == Beyond(places, t, 0)
  {
    if n == 0 {
      AdvancedAtFirst(places, t);
    } else {
      RoundsAdvance(places, t, n - 1);
      RoundAdvances(Rounds(places, n - 1), t, n - 1);
    }
  }

  // ---- what that comes to ----

  /** Every place from 0 up to the width, once each. */
  ghost predicate Permutation(places: seq<nat>) {
    && (forall i | 0 <= i < |places| :: places[i] < |places|)
    && (forall i, j | 0 <= i < j < |places| :: places[i] != places[j])
  }

  /** One value sits at one place only, so raising the threshold past it loses one at most. */
  lemma {:induction false} BeyondSteps(places: seq<nat>, t: nat, p: nat)
    requires Permutation(places) && p <= |places|
    ensures Beyond(places, t, p) <= Beyond(places, t + 1, p) + 1
    ensures t !in places[p..] ==> Beyond(places, t, p) == Beyond(places, t + 1, p)
    decreases |places| - p
  {
    if p < |places| {
      BeyondSteps(places, t, p + 1);
      assert places[p..] == [places[p]] + places[p + 1..];
    }
  }

  lemma {:induction false} BeyondAll(places: seq<nat>, p: nat)
    requires Permutation(places) && p <= |places|
    ensures Beyond(places, 0, p) == |places| - p && Beyond(places, |places|, p) == 0
    decreases |places| - p
  {
    if p < |places| {
      BeyondAll(places, p + 1);
    }
  }

  lemma {:induction false} AtLeastSoMany(places: seq<nat>, t: nat)
    requires Permutation(places) && t <= |places|
    ensures Beyond(places, t, 0) >= |places| - t
  {
    if t == 0 {
      BeyondAll(places, 0);
    } else {
      AtLeastSoMany(places, t - 1);
      BeyondSteps(places, t - 1, 0);
    }
  }

  lemma {:induction false} AtMostSoMany(places: seq<nat>, t: nat)
    requires Permutation(places) && t <= |places|
    ensures Beyond(places, t, 0) <= |places| - t
    decreases |places| - t
  {
    if t == |places| {
      BeyondAll(places, 0);
    } else {
      AtMostSoMany(places, t + 1);
      BeyondSteps(places, t, 0);
    }
  }

  lemma {:induction false} CountsEverywhere(places: seq<nat>, t: nat, p: nat)
    requires p <= |places| && Beyond(places, t, p) == |places| - p
    ensures forall i | p <= i < |places| :: places[i] >= t
    decreases |places| - p
  {
    if p < |places| {
      BeyondBounds(places, t, p + 1);
      CountsEverywhere(places, t, p + 1);
    }
  }

  lemma {:induction false} CountsNowhereBefore(places: seq<nat>, t: nat, p: nat)
    requires p <= |places| && Beyond(places, t, p) == Beyond(places, t, 0)
    ensures forall i | 0 <= i < p :: places[i] < t
    decreases p
  {
    if p > 0 {
      BeyondSoFar(places, t, p - 1);
      CountsNowhereBefore(places, t, p - 1);
    }
  }

  /** The rounds sort: as many rounds as there are places take any permutation to order. */
  lemma RoundsSort(places: seq<nat>)
    requires Permutation(places)
    ensures forall p | 0 <= p < |places| :: Rounds(places, |places|)[p] == p
  {
    var n := |places|;
    var sorted := Rounds(places, n);
    forall p: nat | p < n ensures sorted[p] == p {
      Gathered(places, p);
      Gathered(places, p + 1);
      CountsEverywhere(sorted, p, p);
      CountsNowhereBefore(sorted, p + 1, p + 1);
    }
  }

  /** After that many rounds the values from `t` on fill the places from `t` on. */
  lemma Gathered(places: seq<nat>, t: nat)
    requires Permutation(places) && t <= |places|
    ensures Beyond(Rounds(places, |places|), t, t) == |places| - t
    ensures Beyond(Rounds(places, |places|), t, 0) == |places| - t
  {
    var n := |places|;
    AtLeastSoMany(places, t);
    AtMostSoMany(places, t);
    RoundsAdvance(places, t, n);
    assert AdvancedAt(Rounds(places, n), t, n, t);
    BeyondBounds(Rounds(places, n), t, t);
  }
}
