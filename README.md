# Survivor game bookkeeping, in Dafny

This project models the game-state bookkeeping of the `Game` class of the
pygame survivor game (`code/main.py`). The pygame calls around that bookkeeping
are not modelled. The model covers:

- the coin ledger and the upgrade economy: 3 coins per enemy killed by a bullet,
  and `buy_upgrade`. A purchase is all-or-nothing, levels are capped at 10, each
  cost starts at 5 and rises by 3, and a purchase rewrites the player's speed or health;
- the gun cooldown state machine of `input` and `gun_timer`: `can_shoot`, `shoot_time`,
  and a cooldown of 100 ticks;
- the event loop of `run`:
  - `QUIT` stops the game;
  - the enemy timer spawns an enemy with `slow = 20 * enemy_slow level`, but only while
    the menu is closed;
  - `E` toggles the upgrade menu;
  - `1`/`2`/`3` buy speed, enemy slow or health while the menu is open;
- one frame of `run`: events, `gun_timer`, then (menu closed) `input` and the two
  collision checks. The `while self.running` loop itself is modelled too;
- the text of the upgrade menu: the level shown as `min(level, 10)`, and the cost
  caption `MAX` at the cap or `$<cost>` below it.

Layout:

- `economy.dfy`: the ledger as values.
  - `Buy` is one purchase; `Replay` is a run of kills and purchases.
  - Lemmas show that the ledger invariant is kept and that every coin is accounted for.
- `gun_timing.dfy`: the gun as a value.
  - `Rearm` is `gun_timer` and `Trigger` is `input`; `RunGun` runs a trace of such calls.
  - The fire-rate bound is proved over every trace.
- `events.dfy`: the event loop as a fold `OnEvents` over a `Session` value, with lemmas
  about the menu, quitting, spawning and purchases.
- `upgrade_menu.dfy`: the menu text.
  - `str()` of a natural number is modelled by `NatText`, with a parser that inverts it.
- `game.dfy`: the imperative model.
  - `GameModel` is a class with the fields of `Game`.
  - The class invariant `Valid()` combines the ledger invariant, the player stats that
    follow the levels bought, the gun invariant and the bounded enemy slows.
  - Each method mirrors a method of `Game` and is proved against the value-level
    definitions above.

Time is an integer tick passed in by the caller. A ghost field `clock` holds the
latest reading, and methods require readings never to go backwards. Bullets are
recorded as the sequence of ticks at which they were spawned, and enemies as the
sequence of enemies spawned.

## Model

| member | source | states |
|---|---|---|
| `Economy.PerKey.Set` | code/main.py:184-185 | writing one dictionary entry changes that key's entry to the new value and leaves the other two keys' entries as they were |
| `Economy.Initial` | code/main.py:43-53 | a new game's ledger satisfies the invariant, with 0 coins and every level 0 |
| `Economy.CanBuy` | code/main.py:182 | the purchase guard: the key's level is below 10 and the coins cover its cost (its meaning is stated by `Economy.BuyOutcome`) |
| `Economy.Apply` | code/main.py:117 | a kill adds exactly 3 coins and leaves levels and costs alone; a purchase is `Buy`; either keeps the ledger invariant |
| `Economy.Buy` | code/main.py:180-185 | a purchase keeps the ledger invariant: coins stay >= 0, levels stay in 0..10, and each cost stays 5 + 3 * level |
| `Economy.BuyOutcome` | code/main.py:181-185 | the ledger changes exactly when the level is below 10 and the coins cover the cost. A successful purchase takes exactly the old cost, raises that key's level by 1 and its cost by 3, and leaves every other key's level and cost unchanged |
| `Economy.BuyAtCapIsNoOp` | code/main.py:181-182 | a key at level 10 or more cannot be bought: the ledger is unchanged |
| `Economy.ApplyAccounts` | code/main.py:115-117 | one kill award (+3 coins) or one purchase keeps the invariant and lowers no level. Coins earned equal the change in coins plus the price of the levels bought |
| `Economy.Replay` | code/main.py:180-185 | over any sequence of kill awards and purchases, coins stay >= 0, levels stay in 0..10, and each cost stays 5 + 3 * level |
| `Economy.ReplayConservesCoins` | code/main.py:115-117 | over any sequence of kills and purchases, levels and costs never decrease, and the starting coins plus 3 per kill equal the final coins plus the sum of the prices of every level bought |
| `Economy.PriceSplit` | code/main.py:185 | the price of raising a key from a to c is the price from a to b plus the price from b to c |
| `Economy.FullUpgradePrice` | code/main.py:181-185 | raising a key from level 0 to 10 costs 5 + 8 + ... + 32 = 185 coins |
| `Economy.KillTwoThenBuySpeed` | code/main.py:117-185 | from a new game, two kills and a speed purchase leave 1 coin, speed level 1 and a next speed cost of 8 |
| `GunTiming.Rearm` | code/main.py:83-87 | gun_timer keeps shoot_time. Afterwards the gun is armed exactly when it was armed or at least 100 ticks have passed since shoot_time |
| `GunTiming.Trigger` | code/main.py:73-81 | input changes the gun only when the menu is closed, the button is held and the gun is armed. It then disarms the gun and sets shoot_time to now |
| `GunTiming.Fires` | code/main.py:74-76 | the firing guard: menu closed, primary button held and gun armed (its meaning is stated by `GunTiming.Trigger`) |
| `GunTiming.Step` | code/main.py:73-87 | only a call to input that fires moves shoot_time, to that call's tick, and disarms the gun; gun_timer never moves shoot_time |
| `GunTiming.RunGun` | code/main.py:73-87 | a trace of gun_timer/input calls only appends shots: at most one per call, and earlier shots stay as they were |
| `GunTiming.RearmKeepsInv` | code/main.py:83-87 | gun_timer at a later tick keeps the gun invariant: consecutive shots are >= 100 apart, shoot_time is the last shot, and an armed gun has waited out the cooldown |
| `GunTiming.TriggerKeepsInv` | code/main.py:73-81 | input at a later tick keeps the gun invariant, including the shot it may add |
| `GunTiming.StepKeepsInv` | code/main.py:73-87 | either call, at a later tick, keeps the gun invariant |
| `GunTiming.RunGunKeepsInv` | code/main.py:73-87 | any trace of gun_timer/input calls at non-decreasing ticks keeps the gun invariant |
| `GunTiming.FireRateBound` | code/main.py:76-87 | from a new game's gun, whatever the trace with non-decreasing ticks, two successive bullets are spawned at least 100 ticks apart |
| `GunTiming.SpacedApart` | code/main.py:83-87 | shots k apart in the sequence are at least 100 * k ticks apart |
| `GunTiming.CooldownScenario` | code/main.py:76-87 | with the button held at t, t + 50 and t + 100, bullets are spawned at t and t + 100 only |
| `Events.MenuAfterKey` | code/main.py:215-216 | the menu flag flips exactly when the key is E |
| `Events.PurchaseOnKey` | code/main.py:217-223 | a key press buys something exactly when the menu is open and the key is 1, 2 or 3; 1 buys speed, 2 enemy slow, 3 health |
| `Events.OnEvent` | code/main.py:200-223 | one event: the game keeps running exactly unless it is QUIT. Only E changes the menu, only a key press with the menu open changes the ledger, and only the enemy timer with the menu closed adds an enemy (exactly one) |
| `Events.OnEvents` | code/main.py:200 | the events of a frame, handled in order, add at most one enemy each and never change the enemies already spawned |
| `Events.SpawnOnTimer` | code/main.py:203-213 | an event adds an enemy exactly when it is the enemy timer and the menu is closed. The new enemy has the drawn position and archetype, and slow 20 * enemy_slow level |
| `Events.OnEventsSnoc` | code/main.py:200-223 | handling one more event after a batch is handling the batch and then that event, in order |
| `Events.MenuParity` | code/main.py:214-216 | after any batch of events, the menu is open exactly when it was open and E was pressed an even number of times, or it was closed and E was pressed an odd number of times |
| `Events.QuitStops` | code/main.py:200-202 | after any batch of events the game is running exactly when it was running and no QUIT event came |
| `Events.MenuGates` | code/main.py:203-223 | over events with no E press, the menu stays as it was. With it open nothing spawns; with it closed nothing is bought |
| `Events.SpawnedSlowIsFixed` | code/main.py:203-213 | later events never change enemies already spawned. Each new enemy's slow lies between 20 times the enemy_slow level before and after the events |
| `UpgradeMenu.ShownLevel` | code/main.py:155 | the shown level is at most 10: it is the level when the level is at most 10, and 10 otherwise |
| `UpgradeMenu.NatText` | code/main.py:159 | str of a natural number is a non-empty run of decimal digits with no leading zero: the text starts with '0' only for 0, and is then "0" |
| `UpgradeMenu.IntText` | code/main.py:159 | str of any integer is non-empty and starts with '-' exactly when the integer is negative |
| `UpgradeMenu.ParseNatText` | code/main.py:159 | reading the digits of str(n) back gives n, so the shown text determines the number |
| `UpgradeMenu.CostText` | code/main.py:163-167 | the cost caption is "MAX" exactly when the shown level is >= 10; otherwise it is "$" followed by str(cost) |
| `UpgradeMenu.EntryFor` | code/main.py:144-167 | one slider's texts: its label, str of the clamped level, and the cost caption (its meaning is stated by `UpgradeMenu.EntryShowsLedger`) |
| `UpgradeMenu.EntryShowsLedger` | code/main.py:144-167 | on a well-formed ledger every slider's level text reads back as the key's level, and its caption is "MAX" exactly at level 10. Below the cap the digits after "$" read back as the cost |
| `Game.Player.constructor` | code/main.py:102-104 | the player placed by setup has max_health and health 100 |
| `Game.GameModel.constructor` | code/main.py:16-54 | a new game: running, menu closed, gun armed with shoot_time 0, no coins, levels 0, costs 5, with the class invariant established |
| `Game.GameModel.BuyUpgrade` | code/main.py:180-191 | keeps the invariant; the ledger becomes `Buy` of the old ledger. Only a successful speed purchase sets speed to 500 + 50 * level; only a successful health purchase sets max_health to 100 + 20 * level and health to max_health; otherwise player stats are unchanged |
| `Game.GameModel.Input` | code/main.py:73-81 | the gun becomes `Trigger` of the old gun, and a bullet is recorded at now exactly when it fires. With the menu open nothing changes |
| `Game.GameModel.GunTimer` | code/main.py:83-87 | the gun becomes `Rearm` of the old gun, keeping the invariant |
| `Game.GameModel.BulletCollision` | code/main.py:109-118 | coins rise by exactly 3 per enemy hit, summed over the bullets, and the invariant is kept |
| `Game.GameModel.PlayerCollision` | code/main.py:120-122 | the game stops running exactly when an enemy touches the player, and otherwise keeps its running flag |
| `Game.GameModel.HandleEvent` | code/main.py:200-223 | one event changes running, the menu, the ledger and the spawned enemies exactly as `OnEvent` says, keeping the invariant |
| `Game.GameModel.ProcessEvents` | code/main.py:200-223 | the frame's events, handled in order, change the game exactly as the fold `OnEvents` says, keeping the invariant |
| `Game.GameModel.Update` | code/main.py:227-231 | with the menu closed, input, bullet_collision and player_collision change the gun, the bullets, the coins and the running flag exactly as `UpdateStep` says, keeping the invariant |
| `Game.GameModel.Frame` | code/main.py:195-231 | one frame changes the game exactly as `FrameStep` says (so the gun, the bullets, the session and the coins are all determined; see `Game.FrameStepOutcome`), keeps the invariant, never lowers the speed level, and leaves the player's speed alone unless speed was bought |
| `Game.GameModel.Run` | code/main.py:193-231 | the loop's final state and number of frames played are exactly those of `RunFrom` from the first frame, so it plays frames only while running and stops at the first stop (see `Game.PlaysOnlyWhileRunning`). It keeps the invariant, so all bullets fired are >= 100 ticks apart |
| `Game.GameModel.UpgradeMenuEntries` | code/main.py:124-178 | the menu shows three sliders in the order SPEED, ENEMY SLOW, HEALTH. Each shows the clamped level and the cost caption of the current ledger |
| `Game.UpdateStep` | code/main.py:227-231 | the menu-closed update on values: the gun after input, the bullet it may spawn, 3 coins per enemy hit, and the stop on a player hit |
| `Game.FrameStep` | code/main.py:199-231 | one pass of the loop on values: the events, gun_timer, then the update only if the menu is closed after the events |
| `Game.FrameStepOutcome` | code/main.py:199-231 | the menu and spawned enemies follow the events. With the menu open after them, only the events and gun_timer act: no bullet, no kill award, no collision. With it closed, every kill adds 3 coins, a player hit stops the game, and a bullet is spawned at the input tick exactly when the button is held and the re-armed gun can shoot, which then disarms it |
| `Game.FrameStepKeepsGunInv` | code/main.py:73-87 | a frame at clock readings no earlier than the last keeps the gun invariant, so the fire-rate bound holds across frames |
| `Game.RunFrom` | code/main.py:195 | run from frame i plays at most the frames left; if it stops before they run out the game is no longer running; a game that is not running plays no frame and is unchanged |
| `Game.PlaysOnlyWhileRunning` | code/main.py:195 | for every frame the loop plays, the game was still running after all the frames before it, so no frame is played after the game stops |
| `Game.SpeedPurchaseScenario` | code/main.py:180-190 | a new game, two enemies shot, E then 1 pressed: 1 coin, speed level 1, player speed 550, next speed cost 8 |
| `Game.CooldownFrames` | code/main.py:73-87 | on the game object, with the button held at t, t + 50 and t + 100 (gun_timer before each input), bullets are spawned at t and t + 100 |

## Left out

- pygame initialisation, the window, the frame clock and `dt` (code/main.py:12-15, 197) are I/O and float timing; `get_ticks` readings are parameters, assumed never to go backwards.
- Audio (code/main.py:35-40, 77, 114) is only foreign side effects.
- Image loading and the directory walk (`load_images`) and the TMX map parsing in `setup` are file I/O through libraries. The spawn positions they produce are not modelled.
- Pixel-mask collision (`spritecollide` with `collide_mask`) is a library call. `BulletCollision` takes how many enemies each bullet hits, and `PlayerCollision` takes whether an enemy touches the player.
- Removing the hit enemies and the bullet from their sprite groups (`destroy`, `kill`) is not modelled: bullets and enemies are kept as logs of what was spawned.
- Enemy movement and Player/Bullet/Gun sprite behaviour live in `player.py`, `sprites.py` and `groups.py`, which are not part of this model. How `slow` affects an enemy's speed is therefore not modelled, only the value it is given.
- `Game.Player.constructor`: the player's initial speed is set in `player.py`, so it is a constructor parameter. The speed formula is asserted only once speed has been bought.
- The random `choice` of spawn position and enemy archetype is a value carried by the timer event. The crash of `choice` on an empty list of spawn positions is not modelled.
- Drawing: rectangles, fonts, colours, the float handle position of each slider (code/main.py:156) and the coin counter text (code/main.py:238) are not modelled. The upgrade menu is modelled as the text of each slider.
- The `upgrades` and `upgrade_costs` dictionaries always hold exactly the keys speed, enemy_slow and health. They are modelled as a record with one entry per key, so a lookup of any other key (a `KeyError`) cannot be expressed.
- In `HandleEvent` the three number-key tests are written as one if/else-if chain. The key is a single value, so at most one of the three independent `if`s of the source can hold.
- `Game.GameModel.Run` is given a finite sequence of frames and also stops when that sequence runs out; the source loops until the game stops.
