/** Coin collection and monster contact, both plain box-overlap tests against the cat. */
module Contacts {
  import opened Level

  /** The coin loop's test: a coin not yet taken whose box overlaps the cat's. */
  predicate Grabs(body: Rect, c: Coin)
  {
    !c.taken && Overlaps(body, CoinBox(c))
  }

  function Grab(body: Rect, c: Coin): Coin
  {
    if Grabs(body, c) then c.(taken := true) else c
  }

  /** The coins after one pass of the coin loop. */
  function CollectAll(body: Rect, cs: seq<Coin>): (r: seq<Coin>)
    ensures |r| == |cs|
    ensures forall i :: 0 <= i < |cs| ==> r[i] == Grab(body, cs[i])
  {
    seq(|cs|, i requires 0 <= i < |cs| => Grab(body, cs[i]))
  }

  /** How many coins one pass of the coin loop takes, counted as the loop counts them. */
  function NewlyTaken(body: Rect, cs: seq<Coin>): nat
  {
    if cs == [] then 0
    else NewlyTaken(body, cs[..|cs| - 1]) + (if Grabs(body, cs[|cs| - 1]) then 1 else 0)
  }

  /** The number of taken coins. */
  function CountTaken(cs: seq<Coin>): (n: nat)
    ensures n <= |cs|
  {
    if cs == [] then 0
    else CountTaken(cs[..|cs| - 1]) + (if cs[|cs| - 1].taken then 1 else 0)
  }

  /** The coins with every taken flag cleared, as the reset loop leaves them. */
  function Untake(cs: seq<Coin>): (r: seq<Coin>)
    ensures |r| == |cs|
    ensures forall i :: 0 <= i < |cs| ==> r[i] == cs[i].(taken := false)
  {
    seq(|cs|, i requires 0 <= i < |cs| => cs[i].(taken := false))
  }

  /** The reset loop over the coins: every taken flag cleared, in place. */
  method ClearTaken(cs: seq<Coin>) returns (r: seq<Coin>)
    ensures r == Untake(cs)
  {
    r := cs;
    var i := 0;
    while i < |r|
      invariant 0 <= i <= |r| == |cs|
      invariant forall j :: 0 <= j < i ==> r[j] == cs[j].(taken := false)
      invariant forall j :: i <= j < |r| ==> r[j] == cs[j]
    {
      r := r[i := r[i].(taken := false)];
      i := i + 1;
    }
  }

  /** Some monster's box overlaps the cat's. */
  predicate HitsMonster(body: Rect, ms: seq<Monster>)
  {
    exists i :: 0 <= i < |ms| && Overlaps(body, ms[i])
  }

  /**
   * The counter and the coins move together: one pass of the coin loop adds to
   * the number of taken coins exactly what it adds to the counter.
   */
  lemma {:induction false} CollectCounts(body: Rect, cs: seq<Coin>)
    ensures CountTaken(CollectAll(body, cs)) == CountTaken(cs) + NewlyTaken(body, cs)
  {
    if cs != [] {
      var n := |cs| - 1;
      CollectCounts(body, cs[..n]);
      assert CollectAll(body, cs)[..n] == CollectAll(body, cs[..n]);
    }
  }

  /** A coin already taken is never counted again: a second pass over the same coins takes nothing. */
  lemma {:induction false} SecondPassTakesNothing(body: Rect, cs: seq<Coin>)
    ensures NewlyTaken(body, CollectAll(body, cs)) == 0
    ensures CollectAll(body, CollectAll(body, cs)) == CollectAll(body, cs)
  {
    if cs != [] {
      var n := |cs| - 1;
      SecondPassTakesNothing(body, cs[..n]);
      assert CollectAll(body, cs)[..n] == CollectAll(body, cs[..n]);
    }
  }

  /** The counter changes only for coins that were not taken. */
  lemma {:induction false} NothingToTakeNothingCounted(body: Rect, cs: seq<Coin>)
    requires forall i :: 0 <= i < |cs| && Overlaps(body, CoinBox(cs[i])) ==> cs[i].taken
    ensures NewlyTaken(body, cs) == 0
    ensures CollectAll(body, cs) == cs
  {
    if cs != [] {
      NothingToTakeNothingCounted(body, cs[..|cs| - 1]);
    }
  }

  /** Collecting only flips taken flags from false to true. */
  lemma CollectOnlyTakes(body: Rect, cs: seq<Coin>)
    ensures Untake(CollectAll(body, cs)) == Untake(cs)
    ensures forall i :: 0 <= i < |cs| && cs[i].taken ==> CollectAll(body, cs)[i].taken
  {
  }

  /** After a reset no coin is taken and the count is zero. */
  lemma {:induction false} UntakenCountsZero(cs: seq<Coin>)
    ensures CountTaken(Untake(cs)) == 0
    ensures Untake(Untake(cs)) == Untake(cs)
  {
    if cs != [] {
      var n := |cs| - 1;
      UntakenCountsZero(cs[..n]);
      assert Untake(cs)[..n] == Untake(cs[..n]);
    }
  }

  /** The start-up coins are all untaken. */
  lemma InitialCoinsUntaken()
    ensures Untake(InitialCoins) == InitialCoins
    ensures CountTaken(InitialCoins) == 0
  {
    assert Untake(InitialCoins) == InitialCoins;
    UntakenCountsZero(InitialCoins);
  }
}
