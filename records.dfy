/** Option, for the bot's nullable fields and for lookups that may fail. */
module Wrappers {
  datatype Option<+T> = None | Some(value: T)
}

/**
 * The two persistent records of the game, a player and a pet, with the
 * sequence helpers that model Python's list indexing and `pop`.
 */
module Records {
  import opened Wrappers
  import opened Catalog

  /** Opaque player identity (the chat user id). */
  type UserId = string

  /** Time in whole seconds since the epoch. */
  type Seconds = int

  const Hour: int := 3600

  /** The four trainable stats. */
  datatype Stat = Attack | Defense | Health | Speed

  const AllStats: seq<Stat> := [Attack, Defense, Health, Speed]

  function StatName(s: Stat): string
  {
    match s
    case Attack => "attack"
    case Defense => "defense"
    case Health => "health"
    case Speed => "speed"
  }

  /** Recognises the four stat names a player may type; anything else is unknown. */
  function ParseStat(name: string): (s: Option<Stat>)
    ensures s.Some? <==> name in {"attack", "defense", "health", "speed"}
    ensures s.Some? ==> StatName(s.value) == name
  {
    if name == "attack" then Some(Attack)
    else if name == "defense" then Some(Defense)
    else if name == "health" then Some(Health)
    else if name == "speed" then Some(Speed)
    else None
  }

  datatype Stats = Stats(attack: nat, defense: nat, health: nat, speed: nat)
  {
    function Get(s: Stat): nat
    {
      match s
      case Attack => attack
      case Defense => defense
      case Health => health
      case Speed => speed
    }

    /** The same stats with one of them replaced. */
    function Set(s: Stat, v: nat): (r: Stats)
      ensures r.Get(s) == v
      ensures forall t :: t != s ==> r.Get(t) == Get(t)
    {
      match s
      case Attack => this.(attack := v)
      case Defense => this.(defense := v)
      case Health => this.(health := v)
      case Speed => this.(speed := v)
    }
  }

  /**
   * A pet. `name` is the display name "<rarity> <type>"; the experience
   * counters are carried along but no operation consumes them.
   */
  datatype Pet = Pet(
    id: int,
    name: string,
    kind: PetType,
    rarity: Rarity,
    level: nat,
    xp: int,
    xpNeeded: int,
    stats: Stats,
    coinRate: nat,
    lastCollected: Option<Seconds>)

  function DisplayName(r: Rarity, t: PetType): string
  {
    RarityName(r) + " " + TypeName(t)
  }

  /** What every pet the game creates satisfies. */
  predicate ValidPet(p: Pet)
  {
    p.level >= 1 && p.coinRate >= 1
  }

  /**
   * A player's stored record. A tier missing from `eggs` holds no eggs;
   * `lastDaily` is the time of the last daily claim.
   */
  datatype Player = Player(
    userId: UserId,
    coins: int,
    eggs: map<EggTier, int>,
    pets: seq<Pet>,
    lastDaily: Option<Seconds>,
    streak: int)

  function EggCount(eggs: map<EggTier, int>, t: EggTier): int
  {
    if t in eggs then eggs[t] else 0
  }

  /** The invariant every operation keeps: nothing negative, every pet well formed. */
  predicate ValidPlayer(u: Player)
  {
    && u.coins >= 0
    && u.streak >= 0
    && (forall t :: t in u.eggs ==> u.eggs[t] >= 0)
    && (forall i :: 0 <= i < |u.pets| ==> ValidPet(u.pets[i]))
  }

  /** The record a first-time player starts with. */
  function NewPlayer(id: UserId): (u: Player)
    ensures ValidPlayer(u)
    ensures u.userId == id && u.coins == 450 && u.streak == 0 && u.lastDaily == None
    ensures u.pets == [] && forall t :: EggCount(u.eggs, t) == 0
  {
    Player(id, 450, map[], [], None, 0)
  }

  /**
   * Python's `s[k]`: a negative index counts from the end, and an index out
   * of both ranges raises IndexError (None here).
   */
  function PyLookup<T>(s: seq<T>, k: int): (r: Option<T>)
    ensures r.Some? <==> -|s| <= k < |s|
    ensures 0 <= k < |s| ==> r == Some(s[k])
    ensures -|s| <= k < 0 ==> r == Some(s[|s| + k])
  {
    if 0 <= k < |s| then Some(s[k])
    else if -|s| <= k < 0 then Some(s[|s| + k])
    else None
  }

  /** Python's `s.pop(k)` for an index in range: the list without element k. */
  function RemoveAt<T>(s: seq<T>, k: nat): (r: seq<T>)
    requires k < |s|
    ensures |r| == |s| - 1
    ensures forall i :: 0 <= i < k ==> r[i] == s[i]
    ensures forall i :: k <= i < |r| ==> r[i] == s[i + 1]
    ensures multiset(r) + multiset{s[k]} == multiset(s)
  {
    assert s == s[..k] + [s[k]] + s[k + 1..];
    s[..k] + s[k + 1..]
  }
}
