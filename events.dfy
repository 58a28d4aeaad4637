/** The event loop of Game.run: quitting, the enemy spawn timer (ignored while the
    upgrade menu is open) and key presses (E toggles the menu; 1, 2 and 3 buy an
    upgrade while it is open). */
module Events {
  import opened Economy

  /** Each level of enemy_slow takes 20 off the speed of enemies spawned afterwards. */
  const SlowStep: int := 20

  datatype Option<T> = None | Some(value: T)

  /** The keys run tells apart: K_e, K_1, K_2, K_3, and any other key. */
  datatype Key = KeyE | Key1 | Key2 | Key3 | OtherKey

  /** A spawn position, as read from the map's entity layer. The model only stores it in
      the enemy it places and never computes with it, so it stands for the map's own
      (possibly fractional) coordinates without converting them. */
  datatype Position = Position(x: int, y: int)

  /** An enemy as created by the spawner: where, which animation set, and the slow
      value it keeps for its whole life. */
  datatype Enemy = Enemy(pos: Position, archetype: nat, slow: int)

  /** The events run reacts to. The spawn timer event carries the spawn position and
      the archetype that the random choice picked. */
  datatype Event = Quit | EnemyTimer(pos: Position, archetype: nat) | KeyDown(key: Key) | OtherEvent

  /** The slow given to an enemy spawned at this enemy_slow level. */
  function SpawnSlow(level: int): int
  {
    SlowStep * level
  }

  /** The upgrade bought by a number key. */
  function UpgradeFor(key: Key): Option<UpgradeKey>
  {
    match key
    case Key1 => Some(Speed)
    case Key2 => Some(EnemySlow)
    case Key3 => Some(Health)
    case _ => None
  }

  /** The menu flag after a key press: E flips it, every other key leaves it. */
  function MenuAfterKey(menuOpen: bool, key: Key): (r: bool)
    ensures r != menuOpen <==> key == KeyE
  {
    if key == KeyE then !menuOpen else menuOpen
  }

  /** The upgrade a key press buys: only a number key, and only with the menu open
      after the press (so with the menu open before it, as a number key does not toggle). */
  function PurchaseOnKey(menuOpen: bool, key: Key): (r: Option<UpgradeKey>)
    ensures r.Some? <==> menuOpen && key in {Key1, Key2, Key3}
    ensures r.Some? ==> r == UpgradeFor(key)
  {
    if MenuAfterKey(menuOpen, key) then UpgradeFor(key) else None
  }

  /** The part of the game state the event loop touches. */
  datatype Session = Session(running: bool, menuOpen: bool, ledger: Ledger, spawned: seq<Enemy>)

  /** One pass of the body of `for event in pygame.event.get()`. */
  function OnEvent(s: Session, e: Event): (r: Session)
    ensures r.running == (s.running && e != Quit)
    ensures r.menuOpen != s.menuOpen ==> e == KeyDown(KeyE)
    ensures r.ledger != s.ledger ==> e.KeyDown? && s.menuOpen
    ensures r.spawned == s.spawned || (e.EnemyTimer? && !s.menuOpen && |r.spawned| == |s.spawned| + 1)
  {
    match e
    case Quit => s.(running := false)
    case EnemyTimer(pos, archetype) =>
      if s.menuOpen then s
      else s.(spawned := s.spawned + [Enemy(pos, archetype, SpawnSlow(s.ledger.levels.Get(EnemySlow)))])
    case KeyDown(key) =>
      var bought := PurchaseOnKey(s.menuOpen, key);
      s.(menuOpen := MenuAfterKey(s.menuOpen, key),
         ledger := if bought.Some? then Buy(s.ledger, bought.value) else s.ledger)
    case OtherEvent => s
  }

  /** An event adds an enemy exactly when it is the spawn timer and the menu is closed;
      the new enemy is placed where the spawn was drawn and carries 20 times the
      current enemy_slow level. */
  lemma SpawnOnTimer(s: Session, e: Event)
    ensures var r := OnEvent(s, e);
      (r.spawned != s.spawned <==> e.EnemyTimer? && !s.menuOpen) &&
      (r.spawned != s.spawned ==>
         r.spawned == s.spawned + [Enemy(e.pos, e.archetype, SlowStep * s.ledger.levels.Get(EnemySlow))])
  {
  }

  /** The whole event loop of one frame, in order. */
  function OnEvents(s: Session, es: seq<Event>): (r: Session)
    ensures |s.spawned| <= |r.spawned| <= |s.spawned| + |es|
    ensures r.spawned[..|s.spawned|] == s.spawned
    decreases |es|
  {
    if |es| == 0 then s else OnEvents(OnEvent(s, es[0]), es[1..])
  }

  /** Handling one more event extends the fold: the for loop's step. */
  lemma {:induction false} OnEventsSnoc(s: Session, es: seq<Event>, e: Event)
    ensures OnEvents(s, es + [e]) == OnEvent(OnEvents(s, es), e)
    decreases |es|
  {
    if |es| == 0 {
      assert OnEvents(OnEvent(s, e), []) == OnEvent(s, e);
      assert [] + [e] == [e];
    } else {
      assert (es + [e])[1..] == es[1..] + [e];
      OnEventsSnoc(OnEvent(s, es[0]), es[1..], e);
    }
  }

  function Toggles(es: seq<Event>): nat
    decreases |es|
  {
    if |es| == 0 then 0 else (if es[0] == KeyDown(KeyE) then 1 else 0) + Toggles(es[1..])
  }

  /** The menu is open after the events exactly when it was open before and E was
      pressed an even number of times, or it was closed and E was pressed an odd
      number of times. */
  lemma {:induction false} MenuParity(s: Session, es: seq<Event>)
    ensures OnEvents(s, es).menuOpen == (s.menuOpen != (Toggles(es) % 2 == 1))
    decreases |es|
  {
    if |es| > 0 {
      MenuParity(OnEvent(s, es[0]), es[1..]);
    }
  }

  /** The game keeps running through the events exactly when it was running and no
      quit event came. */
  lemma {:induction false} QuitStops(s: Session, es: seq<Event>)
    ensures OnEvents(s, es).running == (s.running && Quit !in es)
    decreases |es|
  {
    if |es| > 0 {
      QuitStops(OnEvent(s, es[0]), es[1..]);
      assert es == [es[0]] + es[1..];
    }
  }

  /** While the menu stays open nothing spawns; while it stays closed nothing is bought. */
  lemma {:induction false} MenuGates(s: Session, es: seq<Event>)
    requires Toggles(es) == 0
    ensures var r := OnEvents(s, es);
      r.menuOpen == s.menuOpen &&
      (s.menuOpen ==> r.spawned == s.spawned) &&
      (!s.menuOpen ==> r.ledger == s.ledger)
    decreases |es|
  {
    if |es| > 0 {
      MenuGates(OnEvent(s, es[0]), es[1..]);
    }
  }

  /** Enemies already spawned are never changed by later events (in particular by an
      enemy_slow purchase), and each new one carries a slow between 20 times the
      enemy_slow level before and after the events. */
  lemma {:induction false} SpawnedSlowIsFixed(s: Session, es: seq<Event>)
    ensures var r := OnEvents(s, es);
      |s.spawned| <= |r.spawned| && r.spawned[..|s.spawned|] == s.spawned &&
      s.ledger.levels.Get(EnemySlow) <= r.ledger.levels.Get(EnemySlow) &&
      forall i :: |s.spawned| <= i < |r.spawned| ==>
        SpawnSlow(s.ledger.levels.Get(EnemySlow)) <= r.spawned[i].slow <= SpawnSlow(r.ledger.levels.Get(EnemySlow))
    decreases |es|
  {
    if |es| > 0 {
      var s1 := OnEvent(s, es[0]);
      assert s.ledger.levels.Get(EnemySlow) <= s1.ledger.levels.Get(EnemySlow);
      assert |s.spawned| <= |s1.spawned| && s1.spawned[..|s.spawned|] == s.spawned;
      SpawnedSlowIsFixed(s1, es[1..]);
      var r := OnEvents(s1, es[1..]);
      assert r.spawned[..|s.spawned|] == r.spawned[..|s1.spawned|][..|s.spawned|];
      forall i | |s.spawned| <= i < |r.spawned|
        ensures SpawnSlow(s.ledger.levels.Get(EnemySlow)) <= r.spawned[i].slow <= SpawnSlow(r.ledger.levels.Get(EnemySlow))
      {
        if i < |s1.spawned| {
          assert r.spawned[i] == s1.spawned[i];
        }
      }
    }
  }
}
