/**
 * Rarity classification and random pet synthesis. Every random draw the
 * bot makes is a parameter here: the uniform sample in [0, 1) becomes its
 * floor in hundredths, `roll` in [0, 100), and each `randint(a, b)` becomes
 * an integer in [a, b].
 */
module Generation {
  import opened Wrappers
  import opened Catalog
  import opened Records

  /**
   * Classifies `roll - boost` against the cumulative masses from the rarest
   * tier to the most common; the most common tier catches everything else.
   * The result is the one tier whose band [TailMass(rarer), TailMass(r))
   * holds the boosted roll.
   */
  function DetermineRarity(roll: int, boost: nat): (r: Rarity)
    requires 0 <= roll < 100
    ensures roll - boost < TailMass(r)
    ensures r != Mythic ==> TailMass(NextRarity(r)) <= roll - boost
  {
    TailMassValues();
    var x := roll - boost;
    if x < TailMass(Mythic) then Mythic
    else if x < TailMass(Legendary) then Legendary
    else if x < TailMass(Epic) then Epic
    else if x < TailMass(Rare) then Rare
    else if x < TailMass(Uncommon) then Uncommon
    else Common
  }

  /** The result is `r` or rarer exactly when the boosted roll lies below r's cumulative mass. */
  lemma AtLeastAsRare(roll: int, boost: nat, r: Rarity)
    requires 0 <= roll < 100
    ensures Rank(DetermineRarity(roll, boost)) >= Rank(r) <==> roll - boost < TailMass(r)
  {
    var res := DetermineRarity(roll, boost);
    if Rank(res) >= Rank(r) {
      TailMassAntitone(r, res);
    } else {
      TailMassAntitone(NextRarity(res), r);
    }
  }

  /** A larger boost never yields a commoner tier. */
  lemma BoostNeverCommoner(roll: int, b1: nat, b2: nat)
    requires 0 <= roll < 100
    requires b1 <= b2
    ensures Rank(DetermineRarity(roll, b1)) <= Rank(DetermineRarity(roll, b2))
  {
    AtLeastAsRare(roll, b1, DetermineRarity(roll, b1));
    AtLeastAsRare(roll, b2, DetermineRarity(roll, b1));
  }

  /** The most expensive egg never hatches a common pet. */
  lemma SuperiorEggNeverCommon(roll: int)
    requires 0 <= roll < 100
    ensures DetermineRarity(roll, EggBoost(Superior)) != Common
  {
    AtLeastAsRare(roll, EggBoost(Superior), Uncommon);
    TailMassValues();
  }

  /** The rolls below `n`: {0, ..., n - 1}. */
  function RollsBelow(n: nat): (s: set<int>)
    ensures forall x :: x in s <==> 0 <= x < n
  {
    if n == 0 then {} else RollsBelow(n - 1) + {n - 1}
  }

  lemma {:induction false} RollsBelowSize(n: nat)
    ensures |RollsBelow(n)| == n
  {
    if n > 0 {
      var below := RollsBelow(n - 1);
      RollsBelowSize(n - 1);
      assert n - 1 !in below;
      assert RollsBelow(n) == below + {n - 1};
      assert |below + {n - 1}| == |below| + 1;
    }
  }

  /** The rolls in [0, 100) that yield tier `r` or a rarer one. */
  function AtLeastAsRareRolls(r: Rarity, boost: nat): set<int>
  {
    set roll | 0 <= roll < 100 && Rank(DetermineRarity(roll, boost)) >= Rank(r)
  }

  /**
   * Out of the hundred equally likely rolls, exactly TailMass(r) + boost
   * (capped at 100) give `r` or rarer: with no boost the generator follows
   * the cumulative table, and a boost moves mass toward every rarer tail.
   */
  lemma RarityTailCount(r: Rarity, boost: nat)
    ensures |AtLeastAsRareRolls(r, boost)| == if TailMass(r) + boost < 100 then TailMass(r) + boost else 100
  {
    var n := if TailMass(r) + boost < 100 then TailMass(r) + boost else 100;
    forall roll | 0 <= roll < 100
      ensures Rank(DetermineRarity(roll, boost)) >= Rank(r) <==> roll < n
    {
      AtLeastAsRare(roll, boost, r);
    }
    assert AtLeastAsRareRolls(r, boost) == RollsBelow(n);
    RollsBelowSize(n);
  }

  /** The random inputs of one pet generation. */
  datatype Draws = Draws(
    typeIndex: int,
    roll: int,
    baseFactor: int,
    id: int,
    attackJitter: int,
    defenseJitter: int,
    healthJitter: int,
    speedJitter: int)

  /** Each draw lies in the range the bot draws it from. */
  predicate DrawsInRange(d: Draws)
  {
    && 0 <= d.typeIndex < |PetTypes|
    && 0 <= d.roll < 100
    && 5 <= d.baseFactor <= 12
    && 10000 <= d.id <= 99999
    && -1 <= d.attackJitter <= 5
    && 1 <= d.defenseJitter <= 5
    && 5 <= d.healthJitter <= 7
    && 1 <= d.speedJitter <= 8
  }

  /** Each stat lies in its jitter band around `base`; health around twice `base`. */
  predicate StatsInBand(s: Stats, base: int)
  {
    && base - 1 <= s.attack <= base + 5
    && base + 1 <= s.defense <= base + 5
    && 2 * base + 5 <= s.health <= 2 * base + 7
    && base + 1 <= s.speed <= base + 8
  }

  /** Income rate of a freshly generated pet of tier `r`. */
  function HatchedCoinRate(r: Rarity): nat
  {
    20 + Multiplier(r) / 2
  }

  /**
   * A new pet: the given type or a drawn one, a rarity from the boosted
   * roll, a base magnitude of baseFactor times the tier's multiplier and
   * independent jitter on each stat.
   */
  function GenerateRandomPet(petType: Option<PetType>, d: Draws, boost: nat): (p: Pet)
    requires DrawsInRange(d)
    ensures p.kind == (if petType.Some? then petType.value else PetTypes[d.typeIndex])
    ensures p.rarity == DetermineRarity(d.roll, boost)
    ensures p.name == DisplayName(p.rarity, p.kind)
    ensures p.level == 1 && p.xp == 0 && p.xpNeeded == 100 && p.lastCollected == None
    ensures p.coinRate == HatchedCoinRate(p.rarity)
    ensures 10000 <= p.id <= 99999
    ensures StatsInBand(p.stats, d.baseFactor * Multiplier(p.rarity))
    ensures ValidPet(p)
  {
    var kind := if petType.Some? then petType.value else PetTypes[d.typeIndex];
    var rarity := DetermineRarity(d.roll, boost);
    var base := d.baseFactor * Multiplier(rarity);
    Pet(
      d.id,
      DisplayName(rarity, kind),
      kind,
      rarity,
      1,
      0,
      100,
      Stats(base + d.attackJitter, base + d.defenseJitter, 2 * base + d.healthJitter, base + d.speedJitter),
      HatchedCoinRate(rarity),
      None)
  }

  /**
   * Whatever the draws, each stat of a generated pet lies within the bands
   * spanned by base magnitudes from 5 to 12 times the tier's multiplier.
   */
  lemma GeneratedStatBounds(petType: Option<PetType>, d: Draws, boost: nat)
    requires DrawsInRange(d)
    ensures var p := GenerateRandomPet(petType, d, boost);
            var m := Multiplier(p.rarity);
            && 5 * m - 1 <= p.stats.attack <= 12 * m + 5
            && 5 * m + 1 <= p.stats.defense <= 12 * m + 5
            && 10 * m + 5 <= p.stats.health <= 24 * m + 7
            && 5 * m + 1 <= p.stats.speed <= 12 * m + 8
  {
    var p := GenerateRandomPet(petType, d, boost);
    var m := Multiplier(p.rarity);
    assert 5 * m <= d.baseFactor * m <= 12 * m;
  }
}
