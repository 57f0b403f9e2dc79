/**
 * The game's fixed configuration: the six pet types, the six ordered rarity
 * tiers with their drop chances and stat multipliers, and the three egg tiers
 * with their prices and rarity boosts.
 *
 * Probabilities are kept as integer hundredths (a chance of 0.35 is 35), so
 * every comparison the generator makes stays exact.
 */
module Catalog {

  /** The elemental types a pet can have, in the order of the bot's list. */
  datatype PetType = Fire | Water | Earth | Air | Light | Dark

  const PetTypes: seq<PetType> := [Fire, Water, Earth, Air, Light, Dark]

  function TypeName(t: PetType): string
  {
    match t
    case Fire => "Огненный"
    case Water => "Водный"
    case Earth => "Земляной"
    case Air => "Воздушный"
    case Light => "Светлый"
    case Dark => "Тёмный"
  }

  /** Rarity tiers, from the most common to the rarest. */
  datatype Rarity = Common | Uncommon | Rare | Epic | Legendary | Mythic

  const Rarities: seq<Rarity> := [Common, Uncommon, Rare, Epic, Legendary, Mythic]

  /** Position of a tier in the ordering (0 is the most common). */
  function Rank(r: Rarity): (k: nat)
    ensures k < |Rarities| && Rarities[k] == r
  {
    match r
    case Common => 0
    case Uncommon => 1
    case Rare => 2
    case Epic => 3
    case Legendary => 4
    case Mythic => 5
  }

  function RarityName(r: Rarity): string
  {
    match r
    case Common => "Обычный"
    case Uncommon => "Необычный"
    case Rare => "Редкостный"
    case Epic => "Эпический"
    case Legendary => "Легендарный"
    case Mythic => "Мифический"
  }

  /** Drop chance of a tier, in hundredths. */
  function Chance(r: Rarity): nat
  {
    match r
    case Common => 35
    case Uncommon => 30
    case Rare => 20
    case Epic => 10
    case Legendary => 4
    case Mythic => 1
  }

  /** Stat multiplier of a tier. */
  function Multiplier(r: Rarity): nat
  {
    match r
    case Common => 50
    case Uncommon => 100
    case Rare => 250
    case Epic => 500
    case Legendary => 1500
    case Mythic => 3000
  }

  /** The tier one step rarer. */
  function NextRarity(r: Rarity): (n: Rarity)
    requires r != Mythic
    ensures Rank(n) == Rank(r) + 1
  {
    Rarities[Rank(r) + 1]
  }

  /**
   * Probability mass (in hundredths) of the tier and of every rarer tier:
   * the cumulative sums the generator compares its roll against.
   */
  function TailMass(r: Rarity): nat
    decreases |Rarities| - Rank(r)
  {
    if r == Mythic then Chance(r) else Chance(r) + TailMass(NextRarity(r))
  }

  /** The cumulative table, and the chances adding up to one. */
  lemma TailMassValues()
    ensures TailMass(Mythic) == 1 && TailMass(Legendary) == 5 && TailMass(Epic) == 15
    ensures TailMass(Rare) == 35 && TailMass(Uncommon) == 65 && TailMass(Common) == 100
  {
  }

  /** Rarer tiers carry less cumulative mass; the mass never reaches zero. */
  lemma TailMassAntitone(r: Rarity, s: Rarity)
    requires Rank(r) <= Rank(s)
    ensures 1 <= TailMass(s) <= TailMass(r) <= 100
  {
    TailMassValues();
  }

  /** Every promotion step raises the stat multiplier at least twofold. */
  lemma MultiplierGrowth(r: Rarity)
    requires r != Mythic
    ensures 2 * Multiplier(r) <= Multiplier(NextRarity(r))
  {
  }

  /** The three egg tiers on sale, in ascending price. */
  datatype EggTier = Basic | Premium | Superior

  function EggPrice(t: EggTier): nat
  {
    match t
    case Basic => 150
    case Premium => 600
    case Superior => 1200
  }

  /** Rarity boost of an egg tier, in hundredths. */
  function EggBoost(t: EggTier): nat
  {
    match t
    case Basic => 0
    case Premium => 30
    case Superior => 45
  }
}
