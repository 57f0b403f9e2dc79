/**
 * The egg shop: buying an egg of a tier and hatching one into a pet.
 * Each handler takes the player's stored record and returns the record it
 * stores back (the same record when it rejects).
 */
module Shop {
  import opened Wrappers
  import opened Catalog
  import opened Records
  import opened Generation

  /**
   * Buying succeeds exactly when the player can pay the price; then that
   * tier's egg count rises by one and the coins fall by the price.
   */
  method BuyEgg(u: Player, tier: EggTier) returns (bought: bool, u': Player)
    ensures bought <==> u.coins >= EggPrice(tier)
    ensures !bought ==> u' == u
    ensures bought ==> u'.coins == u.coins - EggPrice(tier) && u'.coins >= 0
    ensures bought ==> u'.eggs == u.eggs[tier := EggCount(u.eggs, tier) + 1]
    ensures bought ==> u' == u.(coins := u'.coins, eggs := u'.eggs)
    ensures ValidPlayer(u) ==> ValidPlayer(u')
  {
    if u.coins < EggPrice(tier) {
      return false, u;
    }
    var eggs := u.eggs;
    if tier !in eggs {
      eggs := eggs[tier := 0];
    }
    eggs := eggs[tier := eggs[tier] + 1];
    u' := u.(eggs := eggs);
    u' := u'.(coins := u'.coins - EggPrice(tier));
    bought := true;
  }

  datatype HatchOutcome = NoEgg | Hatched(pet: Pet)

  /**
   * Hatching needs at least one egg of the tier; then the count falls by one
   * and exactly one new pet, generated with the tier's boost, joins the end
   * of the collection.
   */
  method Hatch(u: Player, tier: EggTier, d: Draws) returns (r: HatchOutcome, u': Player)
    requires DrawsInRange(d)
    ensures r == NoEgg <==> EggCount(u.eggs, tier) <= 0
    ensures r == NoEgg ==> u' == u
    ensures r.Hatched? ==> r.pet == GenerateRandomPet(None, d, EggBoost(tier))
    ensures r.Hatched? ==> u'.eggs == u.eggs[tier := EggCount(u.eggs, tier) - 1]
    ensures r.Hatched? ==> u'.pets == u.pets + [r.pet]
    ensures r.Hatched? ==> u' == u.(eggs := u'.eggs, pets := u'.pets)
    ensures ValidPlayer(u) ==> ValidPlayer(u')
  {
    if tier !in u.eggs || u.eggs[tier] <= 0 {
      return NoEgg, u;
    }
    var pet := GenerateRandomPet(None, d, EggBoost(tier));
    u' := u.(eggs := u.eggs[tier := u.eggs[tier] - 1]);
    u' := u'.(pets := u'.pets + [pet]);
    r := Hatched(pet);
  }
}
