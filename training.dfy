/** Training: raising one stat of a pet for a level-scaled fee. */
module Training {
  import opened Wrappers
  import opened Catalog
  import opened Records

  /** Coins a training session costs: 80 plus 10 per level. */
  function TrainCost(p: Pet): int
  {
    80 + 10 * p.level
  }

  /** How much training raises a stat: 1 plus half the tier multiplier, twice that for health. */
  function TrainGain(p: Pet, s: Stat): nat
  {
    var increase := 1 + Multiplier(p.rarity) / 2;
    if s == Health then 2 * increase else increase
  }

  datatype TrainOutcome =
    | UnknownStat
    | IndexCrash
    | InsufficientCoins(cost: int)
    | BadIndex
    | Trained(stat: Stat, before: nat, after: nat)

  /**
   * Trains one stat of the pet at zero-based position `idx`. The checks run
   * in the bot's order: the stat name; then the cost, read from the pet
   * at `idx` with Python's indexing (a negative index counts from the end,
   * a position beyond both ends raises, which stores nothing); then the
   * coins; and only then the range check that turns away negative
   * positions. On success only the chosen stat rises, by TrainGain, and the
   * coins fall by the cost.
   */
  method TrainPet(u: Player, idx: int, statName: string) returns (r: TrainOutcome, u': Player)
    ensures r == UnknownStat <==> ParseStat(statName).None?
    ensures r == IndexCrash <==> ParseStat(statName).Some? && PyLookup(u.pets, idx).None?
    ensures r.InsufficientCoins? <==>
      ParseStat(statName).Some? && PyLookup(u.pets, idx).Some?
      && u.coins < TrainCost(PyLookup(u.pets, idx).value)
    ensures r.InsufficientCoins? ==> r.cost == TrainCost(PyLookup(u.pets, idx).value)
    ensures r == BadIndex <==>
      ParseStat(statName).Some? && PyLookup(u.pets, idx).Some?
      && u.coins >= TrainCost(PyLookup(u.pets, idx).value) && idx < 0
    ensures !r.Trained? ==> u' == u
    ensures r.Trained? ==>
      && ParseStat(statName) == Some(r.stat) && 0 <= idx < |u.pets| && |u'.pets| == |u.pets|
      && var p, p' := u.pets[idx], u'.pets[idx];
      && u'.coins == u.coins - TrainCost(p) >= 0
      && r.before == p.stats.Get(r.stat) && r.after == r.before + TrainGain(p, r.stat)
      && p'.stats.Get(r.stat) == r.after
      && (forall t :: t != r.stat ==> p'.stats.Get(t) == p.stats.Get(t))
      && p' == p.(stats := p'.stats)
      && u' == u.(coins := u'.coins, pets := u.pets[idx := p'])
    ensures ValidPlayer(u) ==> ValidPlayer(u')
  {
    var parsed := ParseStat(statName);
    if parsed.None? {
      return UnknownStat, u;
    }
    var stat := parsed.value;
    var looked := PyLookup(u.pets, idx);
    if looked.None? {
      return IndexCrash, u;
    }
    var cost := TrainCost(looked.value);
    if u.coins < cost {
      return InsufficientCoins(cost), u;
    }
    var pets := u.pets;
    if idx < 0 || idx >= |pets| {
      return BadIndex, u;
    }
    var pet := pets[idx];
    var increase := 1 + Multiplier(pet.rarity) / 2;
    var before := pet.stats.Get(stat);
    if stat == Health {
      pet := pet.(stats := pet.stats.Set(stat, before + increase * 2));
    } else {
      pet := pet.(stats := pet.stats.Set(stat, before + increase));
    }
    u' := u.(pets := pets[idx := pet]);
    u' := u'.(coins := u'.coins - cost);
    r := Trained(stat, before, pet.stats.Get(stat));
  }
}
