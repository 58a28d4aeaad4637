/** The coin ledger and the upgrade levels and costs kept by the game:
    the kill award of bullet_collision and the all-or-nothing buy_upgrade. */
module Economy {

  /** The three keys of the upgrades and upgrade_costs dictionaries. */
  datatype UpgradeKey = Speed | EnemySlow | Health

  const MaxLevel: int := 10
  const BaseCost: int := 5
  const CostStep: int := 3
  const CoinsPerKill: int := 3

  /** Player stats that a purchase rewrites. */
  const BaseSpeed: int := 500
  const SpeedStep: int := 50
  const BaseHealth: int := 100
  const HealthStep: int := 20

  /** A dictionary whose keys are exactly the three upgrade keys, as upgrades and
      upgrade_costs always are: one entry per key, read with Get and written with Set. */
  datatype PerKey = PerKey(speed: int, enemySlow: int, health: int)
  {
    function Get(k: UpgradeKey): int
    {
      match k
      case Speed => speed
      case EnemySlow => enemySlow
      case Health => health
    }

    /** d[k] = v: the entry for k becomes v and every other entry stays. */
    function Set(k: UpgradeKey, v: int): (r: PerKey)
      ensures r.Get(k) == v
      ensures forall j: UpgradeKey :: j != k ==> r.Get(j) == Get(j)
    {
      match k
      case Speed => this.(speed := v)
      case EnemySlow => this.(enemySlow := v)
      case Health => this.(health := v)
    }
  }

  /** coins, upgrades and upgrade_costs, as values. */
  datatype Ledger = Ledger(coins: int, levels: PerKey, costs: PerKey)

  /** The ledger invariant: no debt, levels within 0..10, and the cost of a key
      determined by its level (it starts at 5 and rises by 3 per purchase). */
  predicate WellFormed(l: Ledger)
  {
    l.coins >= 0 &&
    forall k: UpgradeKey ::
      0 <= l.levels.Get(k) <= MaxLevel && l.costs.Get(k) == BaseCost + CostStep * l.levels.Get(k)
  }

  /** The ledger of a new game: no coins, every level 0, every cost 5. */
  function Initial(): (l: Ledger)
    ensures WellFormed(l) && l.coins == 0
    ensures forall k: UpgradeKey :: l.levels.Get(k) == 0
  {
    Ledger(0, PerKey(0, 0, 0), PerKey(BaseCost, BaseCost, BaseCost))
  }

  /** The guard of buy_upgrade: below the level cap and enough coins. */
  predicate CanBuy(l: Ledger, k: UpgradeKey)
  {
    l.levels.Get(k) < MaxLevel && l.coins >= l.costs.Get(k)
  }

  /** buy_upgrade's effect on the ledger: everything or nothing. */
  function Buy(l: Ledger, k: UpgradeKey): (r: Ledger)
    ensures WellFormed(l) ==> WellFormed(r)
  {
    if CanBuy(l, k) then
      Ledger(l.coins - l.costs.Get(k),
             l.levels.Set(k, l.levels.Get(k) + 1),
             l.costs.Set(k, l.costs.Get(k) + CostStep))
    else
      l
  }

  /** A purchase changes the ledger exactly when its guard holds; a successful one
      takes the old cost, raises the level by one and the cost by three, and leaves
      the other keys alone. */
  lemma BuyOutcome(l: Ledger, k: UpgradeKey)
    ensures Buy(l, k) != l <==> CanBuy(l, k)
    ensures !CanBuy(l, k) ==> Buy(l, k) == l
    ensures CanBuy(l, k) ==>
      var r := Buy(l, k);
      r.coins == l.coins - l.costs.Get(k) &&
      r.levels.Get(k) == l.levels.Get(k) + 1 &&
      r.costs.Get(k) == l.costs.Get(k) + CostStep &&
      forall j: UpgradeKey :: j != k ==> r.levels.Get(j) == l.levels.Get(j) && r.costs.Get(j) == l.costs.Get(j)
  {
  }

  /** A key at level 10 can no longer be bought. */
  lemma BuyAtCapIsNoOp(l: Ledger, k: UpgradeKey)
    requires l.levels.Get(k) >= MaxLevel
    ensures Buy(l, k) == l
  {
  }

  /** The ledger events the game loop produces: an enemy killed by a bullet, or a purchase. */
  datatype LedgerOp = Kill | Purchase(key: UpgradeKey)

  /** One ledger event: a kill awards 3 coins and touches nothing else; a purchase is Buy. */
  function Apply(l: Ledger, op: LedgerOp): (r: Ledger)
    ensures WellFormed(l) ==> WellFormed(r)
    ensures op.Kill? ==> r.coins == l.coins + CoinsPerKill && r.levels == l.levels && r.costs == l.costs
  {
    match op
    case Kill => l.(coins := l.coins + CoinsPerKill)
    case Purchase(k) => Buy(l, k)
  }

  /** The ledger after a sequence of kills and purchases, in order. Coins never go
      negative and levels stay within 0..10, whatever the sequence. */
  function Replay(l: Ledger, ops: seq<LedgerOp>): (r: Ledger)
    ensures WellFormed(l) ==> WellFormed(r)
    decreases |ops|
  {
    if |ops| == 0 then l else Replay(Apply(l, ops[0]), ops[1..])
  }

  function Kills(ops: seq<LedgerOp>): nat
    decreases |ops|
  {
    if |ops| == 0 then 0 else (if ops[0].Kill? then 1 else 0) + Kills(ops[1..])
  }

  /** Coins paid to raise one key from level lo to level hi: the sum of the costs
      5 + 3 * n for n in lo .. hi - 1. */
  function PriceOfLevels(lo: int, hi: int): int
    decreases hi - lo
  {
    if hi <= lo then 0 else PriceOfLevels(lo, hi - 1) + BaseCost + CostStep * (hi - 1)
  }

  lemma {:induction false} PriceSplit(a: int, b: int, c: int)
    requires a <= b <= c
    ensures PriceOfLevels(a, b) + PriceOfLevels(b, c) == PriceOfLevels(a, c)
    decreases c - b
  {
    if b < c {
      PriceSplit(a, b, c - 1);
    }
  }

  /** Coins spent on all three keys between two ledgers. */
  function Spent(a: Ledger, b: Ledger): int
  {
    PriceOfLevels(a.levels.speed, b.levels.speed) +
    PriceOfLevels(a.levels.enemySlow, b.levels.enemySlow) +
    PriceOfLevels(a.levels.health, b.levels.health)
  }

  /** One step keeps the invariant, never lowers a level, and balances the books. */
  lemma ApplyAccounts(l: Ledger, op: LedgerOp)
    requires WellFormed(l)
    ensures var r := Apply(l, op);
      WellFormed(r) &&
      (forall k: UpgradeKey :: l.levels.Get(k) <= r.levels.Get(k)) &&
      l.coins + (if op.Kill? then CoinsPerKill else 0) == r.coins + Spent(l, r)
  {
    var r := Apply(l, op);
    if op.Purchase? && CanBuy(l, op.key) {
      var k := op.key;
      assert PriceOfLevels(l.levels.Get(k), l.levels.Get(k) + 1) == l.costs.Get(k);
      match k
      case Speed =>
      case EnemySlow =>
      case Health =>
    }
  }

  /** Levels and costs never decrease, and every coin earned (3 per kill) is either
      still held or was paid for a level bought. */
  lemma {:induction false} ReplayConservesCoins(l: Ledger, ops: seq<LedgerOp>)
    requires WellFormed(l)
    ensures var r := Replay(l, ops);
      (forall k: UpgradeKey :: l.levels.Get(k) <= r.levels.Get(k) && l.costs.Get(k) <= r.costs.Get(k)) &&
      l.coins + CoinsPerKill * Kills(ops) == r.coins + Spent(l, r)
    decreases |ops|
  {
    if |ops| > 0 {
      var l1 := Apply(l, ops[0]);
      ApplyAccounts(l, ops[0]);
      ReplayConservesCoins(l1, ops[1..]);
      var r := Replay(l1, ops[1..]);
      assert Replay(l, ops) == r;
      assert l.levels.Get(Speed) <= l1.levels.Get(Speed) <= r.levels.Get(Speed);
      assert l.levels.Get(EnemySlow) <= l1.levels.Get(EnemySlow) <= r.levels.Get(EnemySlow);
      assert l.levels.Get(Health) <= l1.levels.Get(Health) <= r.levels.Get(Health);
      PriceSplit(l.levels.speed, l1.levels.speed, r.levels.speed);
      PriceSplit(l.levels.enemySlow, l1.levels.enemySlow, r.levels.enemySlow);
      PriceSplit(l.levels.health, l1.levels.health, r.levels.health);
    }
  }

  /** Raising one key from 0 to the cap costs 185 coins in all. */
  lemma FullUpgradePrice()
    ensures PriceOfLevels(0, MaxLevel) == 185
  {
  }

  /** Starting a game, killing two enemies and buying speed leaves 1 coin, speed level 1
      and a next speed cost of 8. */
  lemma KillTwoThenBuySpeed()
    ensures var r := Replay(Initial(), [Kill, Kill, Purchase(Speed)]);
      r.coins == 1 && r.levels.Get(Speed) == 1 && r.costs.Get(Speed) == 8
  {
  }
}
