/**
 * Time-based rewards: the daily claim with its cooldown and streak, and the
 * hourly income pets pay out on collection. `now` is a parameter in whole
 * seconds.
 */
module Accrual {
  import opened Wrappers
  import opened Catalog
  import opened Records

  function Min(a: int, b: int): int
  {
    if a <= b then a else b
  }

  // ---------------------------------------------------------------- daily

  const DailyCooldown: int := 20 * Hour
  const StreakWindow: int := 48 * Hour
  const DailyBase: int := 120
  const StreakBonusPerDay: int := 10
  const StreakBonusCap: int := 3000

  /**
   * Whether an earlier claim is on record. A missing claim and a timestamp
   * of 0 both count as none, as Python's truth test treats them.
   */
  predicate HasClaimed(last: Option<Seconds>)
  {
    last.Some? && last.value != 0
  }

  datatype DailyOutcome = Cooldown(hoursLeft: int) | Rewarded(reward: int, streak: int)

  /**
   * A claim within 20 hours of the previous one is refused and reports the
   * hours left: the whole hours of the remaining wait, plus one, so that it
   * lies in [1, 20] once any time at all has passed (and is 21 at zero
   * elapsed time). Otherwise the streak continues when the previous claim is
   * under 48 hours old and restarts at 1 when it is not, the reward is 120
   * plus a streak bonus of 10 per day capped at 3000, and the claim time
   * becomes `now`.
   */
  method Daily(u: Player, now: Seconds) returns (r: DailyOutcome, u': Player)
    ensures r.Cooldown? <==> HasClaimed(u.lastDaily) && now - u.lastDaily.value < DailyCooldown
    ensures r.Cooldown? ==> u' == u
    ensures r.Cooldown? ==>
      var remaining := DailyCooldown - (now - u.lastDaily.value);
      && (r.hoursLeft - 1) * Hour <= remaining < r.hoursLeft * Hour
      && 1 <= r.hoursLeft
      && (now > u.lastDaily.value ==> r.hoursLeft <= 20)
    ensures r.Rewarded? ==>
      r.streak == (if HasClaimed(u.lastDaily) && now - u.lastDaily.value < StreakWindow then u.streak + 1 else 1)
    ensures r.Rewarded? ==> r.reward == DailyBase + Min(StreakBonusPerDay * r.streak, StreakBonusCap)
    ensures r.Rewarded? ==> u' == u.(streak := r.streak, lastDaily := Some(now), coins := u.coins + r.reward)
    ensures r.Rewarded? && u.streak >= 0 ==> 130 <= r.reward <= 3120
    ensures ValidPlayer(u) ==> ValidPlayer(u')
  {
    var last := u.lastDaily;
    if HasClaimed(last) && now - last.value < DailyCooldown {
      var hoursLeft := (DailyCooldown - (now - last.value)) / Hour + 1;
      return Cooldown(hoursLeft), u;
    }
    var streak := u.streak;
    if HasClaimed(last) && now - last.value < StreakWindow {
      streak := streak + 1;
    } else {
      streak := 1;
    }
    u' := u.(streak := streak, lastDaily := Some(now));
    var bonus := Min(streak * StreakBonusPerDay, StreakBonusCap);
    var total := DailyBase + bonus;
    u' := u'.(coins := u'.coins + total);
    r := Rewarded(total, streak);
  }

  // -------------------------------------------------------------- collect

  const IncomeCap: int := 24 * Hour

  /**
   * Whether the pet has a collection on record. A missing timestamp and any
   * timestamp that is not positive count as none.
   */
  predicate EverCollected(p: Pet)
  {
    p.lastCollected.Some? && p.lastCollected.value > 0
  }

  /** Whether the pet pays out at `now`: never collected, or at least an hour ago. */
  predicate Due(p: Pet, now: Seconds)
  {
    !EverCollected(p) || now - p.lastCollected.value >= Hour
  }

  /**
   * The coins one pet pays at `now`: one hour of its rate when it was never
   * collected, nothing under an hour, otherwise its rate times the elapsed
   * hours capped at 24, rounded down.
   */
  function Income(p: Pet, now: Seconds): (c: nat)
    ensures !EverCollected(p) ==> c == p.coinRate
    ensures !Due(p, now) ==> c == 0
    ensures c <= 24 * p.coinRate
    ensures EverCollected(p) && Due(p, now) ==>
      var paid := Min(now - p.lastCollected.value, IncomeCap);
      c * Hour <= p.coinRate * paid < (c + 1) * Hour
    ensures EverCollected(p) && now - p.lastCollected.value >= IncomeCap ==> c == 24 * p.coinRate
  {
    if !EverCollected(p) then p.coinRate
    else if !Due(p, now) then 0
    else p.coinRate * Min(now - p.lastCollected.value, IncomeCap) / Hour
  }

  /** The pet after collection: stamped with `now` when it paid out, untouched otherwise. */
  function AfterCollect(p: Pet, now: Seconds): (q: Pet)
    ensures Due(p, now) ==> q == p.(lastCollected := Some(now))
    ensures !Due(p, now) ==> q == p
  {
    if Due(p, now) then p.(lastCollected := Some(now)) else p
  }

  /** Total paid out by a sequence of pets. */
  function TotalIncome(pets: seq<Pet>, now: Seconds): nat
  {
    if pets == [] then 0
    else TotalIncome(pets[..|pets| - 1], now) + Income(pets[|pets| - 1], now)
  }

  function CollectedPets(pets: seq<Pet>, now: Seconds): (qs: seq<Pet>)
    ensures |qs| == |pets|
    ensures forall i :: 0 <= i < |pets| ==> qs[i] == AfterCollect(pets[i], now)
  {
    seq(|pets|, i requires 0 <= i < |pets| => AfterCollect(pets[i], now))
  }

  /** Sum of the hourly rates. */
  function TotalRate(pets: seq<Pet>): nat
  {
    if pets == [] then 0 else TotalRate(pets[..|pets| - 1]) + pets[|pets| - 1].coinRate
  }

  datatype CollectOutcome = NoPets | NothingToCollect | Collected(total: nat)

  /**
   * The collection loop: every due pet pays and is stamped with `now`, in
   * list order. Returns the total paid and the updated list.
   */
  method PayAll(pets: seq<Pet>, now: Seconds) returns (total: nat, paid: seq<Pet>)
    ensures total == TotalIncome(pets, now)
    ensures paid == CollectedPets(pets, now)
  {
    paid := pets;
    total := 0;
    var i := 0;
    while i < |paid|
      invariant 0 <= i <= |paid| == |pets|
      invariant total == TotalIncome(pets[..i], now)
      invariant forall k :: 0 <= k < i ==> paid[k] == AfterCollect(pets[k], now)
      invariant forall k :: i <= k < |paid| ==> paid[k] == pets[k]
    {
      var pet := paid[i];
      var last := if pet.lastCollected.None? then 0 else pet.lastCollected.value;
      // elapsed time paid for, in seconds (the bot counts it in hours)
      var due := if last > 0 then Min(IncomeCap, now - last) else Hour;
      SourceIncome(pet, now);
      if due >= Hour {
        var earned := pet.coinRate * due / Hour;
        total := total + earned;
        paid := paid[i := pet.(lastCollected := Some(now))];
      }
      TotalIncomeStep(pets, i, now);
      i := i + 1;
    }
    assert pets[..i] == pets;
  }

  /**
   * Collection pays every due pet and stamps it with `now`. The coins rise
   * by exactly the total paid; a collection that pays nothing stores
   * nothing, and a player without pets is refused.
   */
  method Collect(u: Player, now: Seconds) returns (r: CollectOutcome, u': Player)
    ensures r == NoPets <==> u.pets == []
    ensures r == NothingToCollect <==> u.pets != [] && TotalIncome(u.pets, now) == 0
    ensures !r.Collected? ==> u' == u
    ensures r.Collected? ==> r.total == TotalIncome(u.pets, now) > 0
    ensures r.Collected? ==> u' == u.(coins := u.coins + r.total, pets := CollectedPets(u.pets, now))
    ensures ValidPlayer(u) ==> ValidPlayer(u')
  {
    if u.pets == [] {
      return NoPets, u;
    }
    var total, pets := PayAll(u.pets, now);
    if total > 0 {
      u' := u.(coins := u.coins + total, pets := pets);
      r := Collected(total);
    } else {
      r, u' := NothingToCollect, u;
    }
  }

  /** The bot's per-pet computation, in seconds, pays exactly `Income` and exactly when due. */
  lemma SourceIncome(p: Pet, now: Seconds)
    ensures var last := if p.lastCollected.None? then 0 else p.lastCollected.value;
            var due := if last > 0 then Min(IncomeCap, now - last) else Hour;
            && (due >= Hour <==> Due(p, now))
            && (due >= Hour ==> p.coinRate * due / Hour == Income(p, now))
  {
  }

  lemma TotalIncomeStep(pets: seq<Pet>, i: nat, now: Seconds)
    requires i < |pets|
    ensures TotalIncome(pets[..i + 1], now) == TotalIncome(pets[..i], now) + Income(pets[i], now)
  {
    assert pets[..i + 1][..i] == pets[..i];
  }

  /** No collection pays more than 24 hours of the pets' combined rate. */
  lemma {:induction false} CollectCapped(pets: seq<Pet>, now: Seconds)
    ensures TotalIncome(pets, now) <= 24 * TotalRate(pets)
  {
    if pets != [] {
      CollectCapped(pets[..|pets| - 1], now);
    }
  }

  /**
   * Collecting twice at the same (positive) time pays nothing the second
   * time: every pet either was stamped with `now` or was not yet due.
   */
  lemma {:induction false} CollectTwiceEarnsNothing(pets: seq<Pet>, now: Seconds)
    requires now > 0
    ensures TotalIncome(CollectedPets(pets, now), now) == 0
  {
    if pets != [] {
      var init := pets[..|pets| - 1];
      CollectTwiceEarnsNothing(init, now);
      assert CollectedPets(pets, now)[..|pets| - 1] == CollectedPets(init, now);
    }
  }

  /** A second collection stores the record unchanged. */
  lemma {:induction false} CollectTwiceChangesNothing(pets: seq<Pet>, now: Seconds)
    requires now > 0
    ensures CollectedPets(CollectedPets(pets, now), now) == CollectedPets(pets, now)
  {
    var once := CollectedPets(pets, now);
    forall i | 0 <= i < |pets|
      ensures CollectedPets(once, now)[i] == once[i]
    {
      assert !Due(once[i], now);
    }
  }
}
