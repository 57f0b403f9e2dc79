/**
 * Progression: merging two pets of one type into a stronger one, and
 * training one stat of a pet for coins.
 */
module Progression {
  import opened Wrappers
  import opened Catalog
  import opened Records
  import opened Generation
  import Accrual

  // ---------------------------------------------------------------- merge

  /** The pet the merge builds on: the higher-level one, the first on a tie. */
  function MergeBase(p1: Pet, p2: Pet): Pet
  {
    if p1.level >= p2.level then p1 else p2
  }

  /** The other pet, which lends half of each of its stats. */
  function MergeDonor(p1: Pet, p2: Pet): Pet
  {
    if p1.level >= p2.level then p2 else p1
  }

  /** Chance (in hundredths) that the merge promotes: 30 per combined level, at most 60. */
  function RarityUpChance(p1: Pet, p2: Pet): int
  {
    Accrual.Min(30 * (p1.level + p2.level), 60)
  }

  /** Whether the merge promotes, given the draw in hundredths. */
  predicate Promotes(p1: Pet, p2: Pet, draw: int)
  {
    MergeBase(p1, p2).rarity != Mythic && draw < RarityUpChance(p1, p2)
  }

  /** Income rate of a merged pet of tier `r`. */
  function MergedCoinRate(r: Rarity): nat
  {
    1 + Multiplier(r) / 2
  }

  /** A stat of the base plus half (rounded down) of the donor's. */
  function InheritedStat(base: Pet, donor: Pet, s: Stat): nat
  {
    base.stats.Get(s) + donor.stats.Get(s) / 2
  }

  /** A stat value scaled by the ratio of two tiers' multipliers, rounded down. */
  function Rescaled(v: nat, from: Rarity, to: Rarity): nat
  {
    v * Multiplier(to) / Multiplier(from)
  }

  /**
   * `m` is the pet that merging `p1` with `p2` yields, given a fresh id and
   * the promotion draw: a copy of the base one level up with half the
   * donor's stats added; on promotion one tier rarer with every stat scaled
   * by the multiplier ratio; its name and rate recomputed from its tier and
   * its collection clock cleared.
   */
  ghost predicate IsMergeOf(m: Pet, p1: Pet, p2: Pet, newId: int, draw: int)
  {
    var base := MergeBase(p1, p2);
    var donor := MergeDonor(p1, p2);
    var promoted := Promotes(p1, p2, draw);
    var rarity := if promoted then NextRarity(base.rarity) else base.rarity;
    && m.id == newId
    && m.kind == base.kind
    && m.rarity == rarity
    && m.level == base.level + 1
    && m.xp == base.xp && m.xpNeeded == base.xpNeeded
    && m.name == DisplayName(rarity, base.kind)
    && m.coinRate == MergedCoinRate(rarity)
    && m.lastCollected == None
    && forall s :: m.stats.Get(s) ==
         if promoted then Rescaled(InheritedStat(base, donor, s), base.rarity, rarity)
         else InheritedStat(base, donor, s)
  }

  lemma AllStatsListed()
    ensures forall s :: s in AllStats
  {
    forall s
      ensures s in AllStats
    {
      match s
      case Attack => assert AllStats[0] == s;
      case Defense => assert AllStats[1] == s;
      case Health => assert AllStats[2] == s;
      case Speed => assert AllStats[3] == s;
    }
  }

  /** The first stat loop: each stat of the base plus half the donor's. */
  method InheritStats(base: Pet, donor: Pet) returns (stats: Stats)
    ensures forall s :: stats.Get(s) == InheritedStat(base, donor, s)
  {
    stats := base.stats;
    for k := 0 to |AllStats|
      invariant forall t :: t in AllStats[..k] ==> stats.Get(t) == InheritedStat(base, donor, t)
      invariant forall t :: t !in AllStats[..k] ==> stats.Get(t) == base.stats.Get(t)
    {
      var s := AllStats[k];
      stats := stats.Set(s, base.stats.Get(s) + donor.stats.Get(s) / 2);
      assert AllStats[..k + 1] == AllStats[..k] + [s];
    }
    assert AllStats[..|AllStats|] == AllStats;
    AllStatsListed();
  }

  /** The second stat loop: every stat scaled by the ratio of two tiers' multipliers. */
  method RescaleStats(old_: Stats, from: Rarity, to: Rarity) returns (stats: Stats)
    ensures forall s :: stats.Get(s) == Rescaled(old_.Get(s), from, to)
  {
    stats := old_;
    for k := 0 to |AllStats|
      invariant forall t :: t in AllStats[..k] ==> stats.Get(t) == Rescaled(old_.Get(t), from, to)
      invariant forall t :: t !in AllStats[..k] ==> stats.Get(t) == old_.Get(t)
    {
      var s := AllStats[k];
      stats := stats.Set(s, Rescaled(stats.Get(s), from, to));
      assert AllStats[..k + 1] == AllStats[..k] + [s];
    }
    assert AllStats[..|AllStats|] == AllStats;
    AllStatsListed();
  }

  /**
   * The random inputs of a merge lie in the ranges the bot draws them from:
   * a five-digit id, and the promotion sample in hundredths.
   */
  predicate MergeDrawsInRange(newId: int, draw: int)
  {
    10000 <= newId <= 99999 && 0 <= draw < 100
  }

  /** Builds the merged pet from a copy of the base, as the bot does. */
  method MergePetStats(p1: Pet, p2: Pet, newId: int, draw: int) returns (m: Pet)
    requires MergeDrawsInRange(newId, draw)
    ensures IsMergeOf(m, p1, p2, newId, draw)
  {
    var base := if p1.level >= p2.level then p1 else p2;
    var donor := if base == p1 then p2 else p1;
    m := base.(id := newId);
    m := m.(level := base.level + 1);
    var stats := InheritStats(base, donor);
    var rank := Rank(base.rarity);
    if rank < |Rarities| - 1 && draw < RarityUpChance(p1, p2) {
      var newRarity := Rarities[rank + 1];
      m := m.(rarity := newRarity);
      stats := RescaleStats(stats, base.rarity, newRarity);
    }
    m := m.(stats := stats);
    m := m.(name := DisplayName(m.rarity, m.kind));
    m := m.(coinRate := 1 + Multiplier(m.rarity) / 2);
    m := m.(lastCollected := None);
  }

  /**
   * The merged pet is never weaker than its base: every stat is at least
   * the base's, its level is above both inputs' and its tier is the base's
   * or the next one.
   */
  lemma MergeNeverWeakens(m: Pet, p1: Pet, p2: Pet, newId: int, draw: int)
    requires IsMergeOf(m, p1, p2, newId, draw)
    ensures forall s :: m.stats.Get(s) >= MergeBase(p1, p2).stats.Get(s)
    ensures m.level > p1.level && m.level > p2.level
    ensures Rank(m.rarity) == Rank(MergeBase(p1, p2).rarity) + (if Promotes(p1, p2, draw) then 1 else 0)
    ensures ValidPet(m)
  {
    var base := MergeBase(p1, p2);
    var donor := MergeDonor(p1, p2);
    if Promotes(p1, p2, draw) {
      forall s
        ensures m.stats.Get(s) >= base.stats.Get(s)
      {
        RescaleGrows(InheritedStat(base, donor, s), base.rarity);
      }
    }
  }

  /** Promotion at least doubles a stat, because the next multiplier is at least twice the current one. */
  lemma RescaleGrows(v: nat, r: Rarity)
    requires r != Mythic
    ensures Rescaled(v, r, NextRarity(r)) >= 2 * v
  {
    var m, m' := Multiplier(r), Multiplier(NextRarity(r));
    MultiplierGrowth(r);
    assert v * m' >= (2 * v) * m by {
      assert v * m' - (2 * v) * m == v * (m' - 2 * m);
    }
    QuotientAtLeast(v * m', 2 * v, m);
  }

  /** Dividing by `m` keeps a value at or above `b` when it is at least `b` times `m`. */
  lemma QuotientAtLeast(a: int, b: int, m: int)
    requires m > 0 && a >= b * m
    ensures a / m >= b
  {
    var q := a / m;
    assert a < (q + 1) * m by {
      assert a == q * m + a % m && a % m < m;
    }
    var d := q + 1 - b;
    assert d * m == (q + 1) * m - b * m > 0;
  }

  /**
   * Pets always have level at least 1, so the combined level is at least 2
   * and the promotion chance always sits at its 60 cap.
   */
  lemma RarityUpChanceAtCap(p1: Pet, p2: Pet)
    requires ValidPet(p1) && ValidPet(p2)
    ensures RarityUpChance(p1, p2) == 60
  {
  }

  /** Coins a merge requires: 140 plus 20 per combined level. */
  function MergeCost(p1: Pet, p2: Pet): int
  {
    140 + 20 * (p1.level + p2.level)
  }

  /**
   * The list without the elements at two distinct positions, popped the way
   * the bot pops them: the higher position first, so that the lower one
   * still names the same element.
   */
  function WithoutTwo<T>(s: seq<T>, i: nat, j: nat): (r: seq<T>)
    requires i < |s| && j < |s| && i != j
    ensures |r| == |s| - 2
    ensures multiset(r) + multiset{s[i], s[j]} == multiset(s)
  {
    var lo := if i < j then i else j;
    var hi := if i < j then j else i;
    var once := RemoveAt(s, hi);
    assert once[lo] == s[lo];
    RemoveAt(once, lo)
  }

  /** Every pet left after the removal was in the list before it. */
  lemma WithoutTwoSubset<T>(s: seq<T>, i: nat, j: nat)
    requires i < |s| && j < |s| && i != j
    ensures forall x :: x in WithoutTwo(s, i, j) ==> x in s
  {
    var r := WithoutTwo(s, i, j);
    forall x | x in r
      ensures x in s
    {
      assert x in multiset(r);
      assert x in multiset(s);
    }
  }

  /** The survivors are the other pets in their original order. */
  lemma WithoutTwoKeepsOrder<T>(s: seq<T>, lo: nat, hi: nat)
    requires lo < hi < |s|
    ensures WithoutTwo(s, lo, hi) == WithoutTwo(s, hi, lo) == s[..lo] + s[lo + 1..hi] + s[hi + 1..]
  {
    var once := RemoveAt(s, hi);
    assert once == s[..hi] + s[hi + 1..];
    assert once[..lo] == s[..lo];
    assert once[lo + 1..] == s[lo + 1..hi] + s[hi + 1..];
  }

  /** Popping the lower position first would remove the wrong second element. */
  lemma PopLowerFirstMisses<T>(s: seq<T>, lo: nat, hi: nat)
    requires lo < hi < |s| - 1
    ensures RemoveAt(RemoveAt(s, lo), hi) == RemoveAt(RemoveAt(s, hi + 1), lo)
  {
    var a := RemoveAt(RemoveAt(s, lo), hi);
    var b := RemoveAt(RemoveAt(s, hi + 1), lo);
    assert |a| == |b|;
    forall k | 0 <= k < |a|
      ensures a[k] == b[k]
    {
      if k < lo {
      } else if k < hi {
      } else {
      }
    }
  }

  datatype MergeOutcome = SameSlot | BadIndex | InsufficientCoins(cost: int) | TypeMismatch | Merged(pet: Pet)

  predicate BothInRange(u: Player, i: int, j: int)
  {
    0 <= i < |u.pets| && 0 <= j < |u.pets|
  }

  /**
   * Merges the pets at zero-based positions `i` and `j`. The checks run in
   * order (the same slot, a position out of range, too few coins, differing
   * types) and each rejection stores nothing. On success both pets leave the
   * list, the others keep their order, the merged pet goes last and the
   * coin balance is left as it was: the cost is checked but not charged.
   */
  method MergePets(u: Player, i: int, j: int, newId: int, draw: int) returns (r: MergeOutcome, u': Player)
    requires MergeDrawsInRange(newId, draw)
    ensures r == SameSlot <==> i == j
    ensures r == BadIndex <==> i != j && !BothInRange(u, i, j)
    ensures r.InsufficientCoins? <==>
      i != j && BothInRange(u, i, j) && u.coins < MergeCost(u.pets[i], u.pets[j])
    ensures r.InsufficientCoins? ==> r.cost == MergeCost(u.pets[i], u.pets[j])
    ensures r == TypeMismatch <==>
      i != j && BothInRange(u, i, j) && u.coins >= MergeCost(u.pets[i], u.pets[j])
      && u.pets[i].kind != u.pets[j].kind
    ensures !r.Merged? ==> u' == u
    ensures r.Merged? ==> i != j && BothInRange(u, i, j) && IsMergeOf(r.pet, u.pets[i], u.pets[j], newId, draw)
    ensures r.Merged? ==> u' == u.(pets := WithoutTwo(u.pets, i, j) + [r.pet])
    ensures r.Merged? ==> u'.coins == u.coins && |u'.pets| == |u.pets| - 1
    ensures ValidPlayer(u) ==> ValidPlayer(u')
  {
    if i == j {
      return SameSlot, u;
    }
    var pets := u.pets;
    if i < 0 || i >= |pets| || j < 0 || j >= |pets| {
      return BadIndex, u;
    }
    var pet1 := pets[i];
    var pet2 := pets[j];
    var cost := MergeCost(pet1, pet2);
    if u.coins < cost {
      return InsufficientCoins(cost), u;
    }
    if pet1.kind != pet2.kind {
      return TypeMismatch, u;
    }
    var merged := MergePetStats(pet1, pet2, newId, draw);
    if i > j {
      pets := RemoveAt(pets, i);
      pets := RemoveAt(pets, j);
    } else {
      pets := RemoveAt(pets, j);
      pets := RemoveAt(pets, i);
    }
    pets := pets + [merged];
    u' := u.(pets := pets);
    r := Merged(merged);
    MergeNeverWeakens(merged, pet1, pet2, newId, draw);
    MergeKeepsValid(u, i, j, merged);
  }

  /** A valid record stays valid when two pets give way to a valid merged one. */
  lemma MergeKeepsValid(u: Player, i: nat, j: nat, m: Pet)
    requires i < |u.pets| && j < |u.pets| && i != j
    requires ValidPet(m)
    ensures ValidPlayer(u) ==> ValidPlayer(u.(pets := WithoutTwo(u.pets, i, j) + [m]))
  {
    WithoutTwoSubset(u.pets, i, j);
  }
}
