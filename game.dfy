/** The Game object's bookkeeping, field for field: the running and menu flags, the gun
    timer, the coin ledger, and the stats of the player it owns. Each method changes the
    fields the corresponding method of Game changes and is proved against the value-level
    definitions of the other modules. Bullets and enemies are recorded as the logs of
    what was spawned; sprites, collision masks, drawing and sound are not modelled. */
module Game {
  import opened Economy
  import opened GunTiming
  import opened Events
  import opened UpgradeMenu

  /** The stats of the player that a purchase rewrites. */
  class Player {
    var speed: int
    var maxHealth: int
    var health: int

    /** The player placed by setup, whose max_health and health are then set to 100;
        its starting speed is Player's own. */
    constructor (initialSpeed: int)
      ensures speed == initialSpeed && maxHealth == BaseHealth && health == BaseHealth
    {
      speed := initialSpeed;
      maxHealth := BaseHealth;
      health := BaseHealth;
    }
  }

  /** What one pass of the `while self.running` loop reads from the outside world: the
      queued events, the two clock readings (in gun_timer and in input), whether the
      primary mouse button is held, how many enemies each live bullet's mask overlaps,
      and whether an enemy's mask overlaps the player's. */
  datatype FrameInput = FrameInput(events: seq<Event>, timerNow: int, inputNow: int,
                                   mouseDown: bool, hits: seq<nat>, playerHit: bool)

  /** The clock readings of a run of frames never go backwards. */
  predicate Chronological(frames: seq<FrameInput>)
  {
    (forall i :: 0 <= i < |frames| ==> frames[i].timerNow <= frames[i].inputNow) &&
    (forall i, j :: 0 <= i < j < |frames| ==> frames[i].inputNow <= frames[j].timerNow)
  }

  /** Enemies killed: the sum of the per-bullet hit counts. */
  function Total(hits: seq<nat>): nat
    decreases |hits|
  {
    if |hits| == 0 then 0 else Total(hits[..|hits| - 1]) + hits[|hits| - 1]
  }

  /** The part of the game one frame changes, as a value: the event-loop session, the
      gun, and the ticks of the bullets spawned. */
  datatype GameState = GameState(session: Session, gun: Gun, shots: seq<int>)

  /** The update run does with the menu closed, on values: input, the kill award of
      bullet_collision and the outcome of player_collision. */
  function UpdateStep(w: GameState, f: FrameInput): GameState
  {
    var s := w.session;
    GameState(s.(ledger := s.ledger.(coins := s.ledger.coins + CoinsPerKill * Total(f.hits)),
                 running := s.running && !f.playerHit),
              Trigger(w.gun, f.mouseDown, false, f.inputNow),
              if Fires(w.gun, f.mouseDown, false) then w.shots + [f.inputNow] else w.shots)
  }

  /** One pass of the `while self.running` loop on values: the event loop, gun_timer,
      and, unless the menu is then open, the update. */
  function FrameStep(w: GameState, f: FrameInput): GameState
  {
    var s := OnEvents(w.session, f.events);
    var w1 := GameState(s, Rearm(w.gun, f.timerNow), w.shots);
    if s.menuOpen then w1 else UpdateStep(w1, f)
  }

  /** What one frame does: with the menu open after the events, only the events and
      gun_timer act; with it closed, a bullet is spawned exactly when the button is held
      and the re-armed gun can shoot, every kill adds 3 coins, and a player hit stops
      the game. */
  lemma FrameStepOutcome(w: GameState, f: FrameInput)
    ensures var s := OnEvents(w.session, f.events); var g := Rearm(w.gun, f.timerNow);
      var r := FrameStep(w, f);
      r.session.menuOpen == s.menuOpen && r.session.spawned == s.spawned &&
      r.session.ledger.levels == s.ledger.levels && r.session.ledger.costs == s.ledger.costs &&
      (s.menuOpen ==> r.session == s && r.gun == g && r.shots == w.shots) &&
      (!s.menuOpen ==>
         r.session.ledger.coins == s.ledger.coins + CoinsPerKill * Total(f.hits) &&
         r.session.running == (s.running && !f.playerHit) &&
         (r.shots != w.shots <==> f.mouseDown && g.canShoot) &&
         (f.mouseDown && g.canShoot ==> r.shots == w.shots + [f.inputNow] && r.gun == Gun(false, f.inputNow)))
  {
  }

  /** A frame at clock readings no earlier than the last keeps the gun invariant. */
  lemma FrameStepKeepsGunInv(w: GameState, f: FrameInput, clock: int)
    requires GunInv(w.gun, w.shots, clock) && clock <= f.timerNow <= f.inputNow
    ensures GunInv(FrameStep(w, f).gun, FrameStep(w, f).shots, f.inputNow)
  {
  }

  /** run on values, from frame i on: frames are played while the game is running and
      input remains. The result is the final state and the number of frames played. */
  function RunFrom(w: GameState, frames: seq<FrameInput>, i: nat): (r: (GameState, nat))
    requires i <= |frames|
    ensures i + r.1 <= |frames|
    ensures i + r.1 < |frames| ==> !r.0.session.running
    ensures !w.session.running ==> r == (w, 0)
    decreases |frames| - i
  {
    if i == |frames| || !w.session.running then (w, 0)
    else
      var rest := RunFrom(FrameStep(w, frames[i]), frames, i + 1);
      (rest.0, rest.1 + 1)
  }

  /** The loop exits at the first stop: for each frame it plays (the k-th from frame i),
      the run cut off just before that frame plays all k earlier frames and leaves the
      game still running. */
  lemma {:induction false} PlaysOnlyWhileRunning(w: GameState, frames: seq<FrameInput>, i: nat, k: nat)
    requires i <= |frames| && k < RunFrom(w, frames, i).1
    ensures RunFrom(w, frames[..i + k], i).1 == k
    ensures RunFrom(w, frames[..i + k], i).0.session.running
    decreases k
  {
    if k > 0 {
      PlaysOnlyWhileRunning(FrameStep(w, frames[i]), frames, i + 1, k - 1);
      assert frames[..i + k][i] == frames[i];
    }
  }

  class GameModel {
    var running: bool
    var canShoot: bool
    var shootTime: int
    var coins: int
    var upgrades: PerKey
    var upgradeCosts: PerKey
    var upgradeMenu: bool
    const player: Player
    /** The tick at which each bullet was spawned, in order. */
    var shots: seq<int>
    /** Every enemy spawned, in order. */
    var spawned: seq<Enemy>
    /** The latest clock reading the game has taken. */
    ghost var clock: int

    function LedgerState(): Ledger
      reads this
    {
      Ledger(coins, upgrades, upgradeCosts)
    }

    function GunState(): Gun
      reads this
    {
      Gun(canShoot, shootTime)
    }

    function SessionState(): Session
      reads this
    {
      Session(running, upgradeMenu, LedgerState(), spawned)
    }

    function State(): GameState
      reads this
    {
      GameState(SessionState(), GunState(), shots)
    }

    /** The object invariant: a well-formed ledger; player stats that follow the levels
        bought; the gun invariant over the shots fired; and enemy slows no larger than
        the current enemy_slow level gives. */
    ghost predicate Valid()
      reads this, player
    {
      WellFormed(LedgerState()) && StatsFollowLevels() && GunValid() && SlowsBounded()
    }

    ghost predicate StatsFollowLevels()
      reads this`upgrades, player
    {
      player.maxHealth == BaseHealth + HealthStep * upgrades.health &&
      player.health == player.maxHealth &&
      (upgrades.speed > 0 ==> player.speed == BaseSpeed + SpeedStep * upgrades.speed)
    }

    ghost predicate GunValid()
      reads this`canShoot, this`shootTime, this`shots, this`clock
    {
      GunInv(Gun(canShoot, shootTime), shots, clock)
    }

    ghost predicate SlowsBounded()
      reads this`spawned, this`upgrades
    {
      forall i :: 0 <= i < |spawned| ==> 0 <= spawned[i].slow <= SpawnSlow(upgrades.enemySlow)
    }

    /** Game.__init__ and the player part of setup. */
    constructor (initialSpeed: int)
      ensures Valid() && fresh(player)
      ensures running && !upgradeMenu
      ensures GunState() == Armed && shots == [] && spawned == []
      ensures LedgerState() == Initial()
      ensures player.speed == initialSpeed && clock == 0
    {
      running := true;
      canShoot := true;
      shootTime := 0;
      coins := 0;
      upgrades := PerKey(0, 0, 0);
      upgradeCosts := PerKey(BaseCost, BaseCost, BaseCost);
      upgradeMenu := false;
      player := new Player(initialSpeed);
      shots := [];
      spawned := [];
      clock := 0;
    }

    /** buy_upgrade: all or nothing on the ledger, and the player stat of the key bought. */
    method BuyUpgrade(name: UpgradeKey)
      requires Valid()
      modifies this`coins, this`upgrades, this`upgradeCosts, player
      ensures Valid()
      ensures LedgerState() == Buy(old(LedgerState()), name)
      ensures var bought := old(CanBuy(LedgerState(), name));
        player.speed == (if bought && name == Speed then BaseSpeed + SpeedStep * upgrades.speed
                         else old(player.speed)) &&
        player.maxHealth == (if bought && name == Health then BaseHealth + HealthStep * upgrades.health
                             else old(player.maxHealth)) &&
        player.health == (if bought && name == Health then player.maxHealth else old(player.health))
    {
      if upgrades.Get(name) < MaxLevel && coins >= upgradeCosts.Get(name) {
        coins := coins - upgradeCosts.Get(name);
        upgrades := upgrades.Set(name, upgrades.Get(name) + 1);
        upgradeCosts := upgradeCosts.Set(name, upgradeCosts.Get(name) + CostStep);
        if name == Speed {
          player.speed := BaseSpeed + upgrades.speed * SpeedStep;
        }
        if name == Health {
          player.maxHealth := BaseHealth + upgrades.health * HealthStep;
          player.health := player.maxHealth;
        }
      }
    }

    /** input: with the menu closed, the button held and the gun armed, spawn a bullet,
        disarm the gun and record the shot time. */
    method Input(now: int, mouseDown: bool)
      requires Valid() && clock <= now
      modifies this`canShoot, this`shootTime, this`shots, this`clock
      ensures Valid() && clock == now
      ensures GunState() == Trigger(old(GunState()), mouseDown, upgradeMenu, now)
      ensures shots == old(shots) + (if old(Fires(GunState(), mouseDown, upgradeMenu)) then [now] else [])
    {
      TriggerKeepsInv(GunState(), shots, clock, mouseDown, upgradeMenu, now);
      clock := now;
      if upgradeMenu {
        return;
      }
      if mouseDown && canShoot {
        shots := shots + [now];
        canShoot := false;
        shootTime := now;
      }
    }

    /** gun_timer: re-arm once the cooldown has passed since the last shot. */
    method GunTimer(now: int)
      requires Valid() && clock <= now
      modifies this`canShoot, this`clock
      ensures Valid() && clock == now
      ensures GunState() == Rearm(old(GunState()), now)
    {
      RearmKeepsInv(GunState(), shots, clock, now);
      clock := now;
      if !canShoot {
        if now - shootTime >= Cooldown {
          canShoot := true;
        }
      }
    }

    /** bullet_collision: every enemy a bullet hits is destroyed and earns 3 coins. */
    method BulletCollision(hits: seq<nat>)
      requires Valid()
      modifies this`coins
      ensures Valid()
      ensures coins == old(coins) + CoinsPerKill * Total(hits)
    {
      var b := 0;
      while b < |hits|
        invariant 0 <= b <= |hits|
        invariant Valid()
        invariant coins == old(coins) + CoinsPerKill * Total(hits[..b])
      {
        var k := 0;
        while k < hits[b]
          invariant 0 <= k <= hits[b]
          invariant Valid()
          invariant coins == old(coins) + CoinsPerKill * (Total(hits[..b]) + k)
        {
          coins := coins + CoinsPerKill;
          k := k + 1;
        }
        assert hits[..b + 1][..b] == hits[..b];
        b := b + 1;
      }
      assert hits[..b] == hits;
    }

    /** player_collision: touching an enemy ends the game. */
    method PlayerCollision(playerHit: bool)
      requires Valid()
      modifies this`running
      ensures Valid()
      ensures running == (old(running) && !playerHit)
    {
      if playerHit {
        running := false;
      }
    }

    /** One event of the event loop of run. */
    method HandleEvent(e: Event)
      requires Valid()
      modifies this`running, this`upgradeMenu, this`spawned, this`coins, this`upgrades, this`upgradeCosts, player
      ensures Valid()
      ensures SessionState() == OnEvent(old(SessionState()), e)
      ensures upgrades.speed == old(upgrades.speed) ==> player.speed == old(player.speed)
    {
      match e
      case Quit =>
        running := false;
      case EnemyTimer(pos, archetype) =>
        if !upgradeMenu {
          var slow := upgrades.enemySlow * SlowStep;
          assert 0 <= upgrades.Get(EnemySlow) && slow == SpawnSlow(upgrades.enemySlow);
          spawned := spawned + [Enemy(pos, archetype, slow)];
        }
      case KeyDown(key) =>
        if key == KeyE {
          upgradeMenu := !upgradeMenu;
        }
        if upgradeMenu {
          if key == Key1 {
            BuyUpgrade(Speed);
          } else if key == Key2 {
            BuyUpgrade(EnemySlow);
          } else if key == Key3 {
            BuyUpgrade(Health);
          }
        }
      case OtherEvent =>
    }

    /** The event loop of one frame: `for event in pygame.event.get()`. */
    method ProcessEvents(events: seq<Event>)
      requires Valid()
      modifies this`running, this`upgradeMenu, this`spawned, this`coins, this`upgrades, this`upgradeCosts, player
      ensures Valid()
      ensures SessionState() == OnEvents(old(SessionState()), events)
      ensures old(upgrades.speed) <= upgrades.speed
      ensures upgrades.speed == old(upgrades.speed) ==> player.speed == old(player.speed)
    {
      for i := 0 to |events|
        invariant Valid()
        invariant SessionState() == OnEvents(old(SessionState()), events[..i])
        invariant old(upgrades.speed) <= upgrades.speed
        invariant upgrades.speed == old(upgrades.speed) ==> player.speed == old(player.speed)
      {
        OnEventsSnoc(old(SessionState()), events[..i], events[i]);
        assert events[..i + 1] == events[..i] + [events[i]];
        HandleEvent(events[i]);
      }
      assert events[..|events|] == events;
    }

    /** One pass of the `while self.running` loop, without dt and drawing: events,
        gun_timer, and, unless the menu is open, input and the two collision checks. */
    method Frame(f: FrameInput)
      requires Valid() && clock <= f.timerNow <= f.inputNow
      modifies this, player
      ensures Valid() && clock <= f.inputNow
      ensures State() == FrameStep(old(State()), f)
      ensures old(upgrades.speed) <= upgrades.speed
      ensures upgrades.speed == old(upgrades.speed) ==> player.speed == old(player.speed)
    {
      ghost var w := State();
      ProcessEvents(f.events);
      GunTimer(f.timerNow);
      assert State() == GameState(OnEvents(w.session, f.events), Rearm(w.gun, f.timerNow), w.shots);
      if !upgradeMenu {
        Update(f);
      }
    }

    /** The `if not self.upgrade_menu` block of run: input, then the two collision checks. */
    method Update(f: FrameInput)
      requires Valid() && !upgradeMenu && clock <= f.inputNow
      modifies this`canShoot, this`shootTime, this`shots, this`clock, this`coins, this`running
      ensures Valid() && clock == f.inputNow
      ensures State() == UpdateStep(old(State()), f)
    {
      ghost var w := State();
      ghost var fired := Fires(w.gun, f.mouseDown, false);
      Input(f.inputNow, f.mouseDown);
      assert GunState() == Trigger(w.gun, f.mouseDown, false, f.inputNow);
      assert shots == if fired then w.shots + [f.inputNow] else w.shots;
      BulletCollision(f.hits);
      PlayerCollision(f.playerHit);
      assert SessionState() == w.session.(ledger := w.session.ledger.(coins := w.session.ledger.coins + CoinsPerKill * Total(f.hits)),
                                          running := w.session.running && !f.playerHit);
    }

    /** run: frames until the game stops running or the input runs out. */
    method Run(frames: seq<FrameInput>) returns (played: nat)
      requires Valid() && Chronological(frames)
      requires |frames| > 0 ==> clock <= frames[0].timerNow
      modifies this, player
      ensures Valid() && Spaced(shots)
      ensures (State(), played) == RunFrom(old(State()), frames, 0)
      ensures upgrades.speed == old(upgrades.speed) ==> player.speed == old(player.speed)
    {
      played := 0;
      while running && played < |frames|
        invariant Valid()
        invariant played <= |frames|
        invariant played < |frames| ==> clock <= frames[played].timerNow
        invariant var rest := RunFrom(State(), frames, played);
          RunFrom(old(State()), frames, 0) == (rest.0, rest.1 + played)
        invariant old(upgrades.speed) <= upgrades.speed
        invariant upgrades.speed == old(upgrades.speed) ==> player.speed == old(player.speed)
        decreases |frames| - played
      {
        Frame(frames[played]);
        played := played + 1;
      }
    }

    /** draw_upgrade_menu's text: one entry per slider, in screen order. */
    method UpgradeMenuEntries() returns (entries: seq<MenuEntry>)
      requires Valid()
      ensures |entries| == |MenuOrder|
      ensures forall i :: 0 <= i < |entries| ==> entries[i] == EntryFor(LedgerState(), i)
    {
      entries := [];
      for i := 0 to |MenuOrder|
        invariant |entries| == i
        invariant forall j :: 0 <= j < i ==> entries[j] == EntryFor(LedgerState(), j)
      {
        var (title, key) := MenuOrder[i];
        var level := ShownLevel(upgrades.Get(key));
        var costText := if level >= MaxLevel then "MAX" else "$" + IntText(upgradeCosts.Get(key));
        entries := entries + [MenuEntry(title, IntText(level), costText)];
      }
    }
  }

  /** A new game, two enemies shot, the menu opened with E and speed bought with 1:
      1 coin left, speed level 1, player speed 550, next speed cost 8. */
  method SpeedPurchaseScenario(initialSpeed: int) returns (coins: int, level: int, speed: int, nextCost: int)
    ensures coins == 1 && level == 1 && speed == 550 && nextCost == 8
  {
    var game := new GameModel(initialSpeed);
    game.BulletCollision([2]);
    assert Total([2]) == 2;
    game.HandleEvent(KeyDown(KeyE));
    game.HandleEvent(KeyDown(Key1));
    coins, level, speed, nextCost := game.coins, game.upgrades.speed, game.player.speed, game.upgradeCosts.speed;
  }

  /** Holding the button from tick t: shots at t and t + 50 are one bullet, and the
      frame at t + 100 fires again. */
  method CooldownFrames(t: nat) returns (shots: seq<int>)
    ensures shots == [t, t + 100]
  {
    var game := new GameModel(0);
    game.GunTimer(t);
    game.Input(t, true);
    game.GunTimer(t + 50);
    game.Input(t + 50, true);
    game.GunTimer(t + 100);
    game.Input(t + 100, true);
    shots := game.shots;
  }
}
