/** The gun cooldown state machine of Game.input and Game.gun_timer: the gun is either
    armed (can_shoot) or cooling down since shoot_time, and re-arms once the
    cooldown of 100 ticks has passed. */
module GunTiming {

  const Cooldown: int := 100

  /** can_shoot and shoot_time. */
  datatype Gun = Gun(canShoot: bool, shootTime: int)

  /** The gun of a new game: armed, shoot_time 0. */
  const Armed: Gun := Gun(true, 0)

  /** gun_timer: a cooling gun re-arms when now - shoot_time >= cooldown. */
  function Rearm(g: Gun, now: int): (r: Gun)
    ensures r.shootTime == g.shootTime
    ensures r.canShoot <==> g.canShoot || now - g.shootTime >= Cooldown
  {
    if !g.canShoot && now - g.shootTime >= Cooldown then Gun(true, g.shootTime) else g
  }

  /** The guard of input: menu closed, primary button held, gun armed. */
  predicate Fires(g: Gun, pressed: bool, menuOpen: bool)
  {
    !menuOpen && pressed && g.canShoot
  }

  /** input: a shot disarms the gun and records its time; otherwise nothing changes. */
  function Trigger(g: Gun, pressed: bool, menuOpen: bool, now: int): (r: Gun)
    ensures r != g ==> Fires(g, pressed, menuOpen)
    ensures Fires(g, pressed, menuOpen) ==> !r.canShoot && r.shootTime == now
  {
    if Fires(g, pressed, menuOpen) then Gun(false, now) else g
  }

  /** One call into the gun, at a clock reading: gun_timer or input. */
  datatype GunStep = TimerCheck(now: int) | FireAttempt(now: int, pressed: bool, menuOpen: bool)

  predicate StepFires(g: Gun, s: GunStep)
  {
    s.FireAttempt? && Fires(g, s.pressed, s.menuOpen)
  }

  /** Only a step that fires moves shoot_time, and it moves it to that step's tick. */
  function Step(g: Gun, s: GunStep): (r: Gun)
    ensures StepFires(g, s) ==> !r.canShoot && r.shootTime == s.now
    ensures !StepFires(g, s) ==> r.shootTime == g.shootTime
  {
    match s
    case TimerCheck(now) => Rearm(g, now)
    case FireAttempt(now, pressed, menuOpen) => Trigger(g, pressed, menuOpen, now)
  }

  /** The final gun and the times at which bullets were spawned, in order: the shots
      fired by the steps are appended to those already fired. */
  function RunGun(g: Gun, shots: seq<int>, steps: seq<GunStep>): (r: (Gun, seq<int>))
    ensures |shots| <= |r.1| <= |shots| + |steps|
    ensures r.1[..|shots|] == shots
    decreases |steps|
  {
    if |steps| == 0 then (g, shots)
    else
      var s := steps[0];
      RunGun(Step(g, s), if StepFires(g, s) then shots + [s.now] else shots, steps[1..])
  }

  /** Clock readings never go backwards. */
  ghost predicate Ordered(steps: seq<GunStep>)
  {
    forall i, j :: 0 <= i < j < |steps| ==> steps[i].now <= steps[j].now
  }

  function LastTime(clock: int, steps: seq<GunStep>): int
  {
    if |steps| == 0 then clock else steps[|steps| - 1].now
  }

  /** Consecutive shots are at least one cooldown apart. */
  ghost predicate Spaced(shots: seq<int>)
  {
    forall i, j :: 0 <= i < j < |shots| && j == i + 1 ==> shots[j] - shots[i] >= Cooldown
  }

  /** What the gun state says about the shots fired so far, given the latest clock
      reading: shoot_time is the last shot, and an armed gun has waited out the cooldown. */
  ghost predicate GunInv(g: Gun, shots: seq<int>, clock: int)
  {
    Spaced(shots) &&
    (|shots| > 0 ==> g.shootTime == shots[|shots| - 1] && shots[|shots| - 1] <= clock) &&
    (g.canShoot && |shots| > 0 ==> clock - g.shootTime >= Cooldown)
  }

  lemma ArmedInv(clock: int)
    ensures GunInv(Armed, [], clock)
  {
  }

  /** gun_timer keeps the invariant at a later clock reading. */
  lemma RearmKeepsInv(g: Gun, shots: seq<int>, clock: int, now: int)
    requires GunInv(g, shots, clock) && clock <= now
    ensures GunInv(Rearm(g, now), shots, now)
  {
  }

  /** input keeps the invariant at a later clock reading, adding the shot it fires. */
  lemma TriggerKeepsInv(g: Gun, shots: seq<int>, clock: int, pressed: bool, menuOpen: bool, now: int)
    requires GunInv(g, shots, clock) && clock <= now
    ensures GunInv(Trigger(g, pressed, menuOpen, now),
                   if Fires(g, pressed, menuOpen) then shots + [now] else shots, now)
  {
  }

  /** One gun_timer or input call keeps the invariant at its own clock reading. */
  lemma StepKeepsInv(g: Gun, shots: seq<int>, clock: int, s: GunStep)
    requires GunInv(g, shots, clock) && clock <= s.now
    ensures GunInv(Step(g, s), if StepFires(g, s) then shots + [s.now] else shots, s.now)
  {
    if s.TimerCheck? {
      RearmKeepsInv(g, shots, clock, s.now);
    } else {
      TriggerKeepsInv(g, shots, clock, s.pressed, s.menuOpen, s.now);
    }
  }

  /** Any sequence of gun_timer and input calls at non-decreasing clock readings keeps
      the invariant. */
  lemma {:induction false} RunGunKeepsInv(g: Gun, shots: seq<int>, clock: int, steps: seq<GunStep>)
    requires GunInv(g, shots, clock) && Ordered(steps)
    requires |steps| > 0 ==> clock <= steps[0].now
    ensures GunInv(RunGun(g, shots, steps).0, RunGun(g, shots, steps).1, LastTime(clock, steps))
    decreases |steps|
  {
    if |steps| > 0 {
      var s := steps[0];
      StepKeepsInv(g, shots, clock, s);
      assert LastTime(clock, steps) == LastTime(s.now, steps[1..]);
      RunGunKeepsInv(Step(g, s), if StepFires(g, s) then shots + [s.now] else shots, s.now, steps[1..]);
    }
  }

  /** The fire-rate bound: from a fresh gun, however the button is held, two successive
      bullets are spawned at least 100 ticks apart. */
  lemma FireRateBound(steps: seq<GunStep>)
    requires Ordered(steps)
    ensures Spaced(RunGun(Armed, [], steps).1)
  {
    var c := if |steps| == 0 then 0 else steps[0].now;
    ArmedInv(c);
    RunGunKeepsInv(Armed, [], c, steps);
  }

  /** Shots that are k apart in the sequence are at least k cooldowns apart in time. */
  lemma {:induction false} SpacedApart(shots: seq<int>, i: int, j: int)
    requires Spaced(shots) && 0 <= i <= j < |shots|
    ensures shots[j] - shots[i] >= Cooldown * (j - i)
    decreases j - i
  {
    if i < j {
      SpacedApart(shots, i, j - 1);
      assert shots[j] - shots[j - 1] >= Cooldown;
    }
  }

  /** Firing with the button held at t, t + 50 and t + 100 (the timer checked before each
      attempt) spawns bullets at t and t + 100 only. */
  lemma CooldownScenario(t: int)
    ensures RunGun(Armed, [], [FireAttempt(t, true, false),
                               TimerCheck(t + 50), FireAttempt(t + 50, true, false),
                               TimerCheck(t + 100), FireAttempt(t + 100, true, false)]).1 == [t, t + 100]
  {
    var steps := [FireAttempt(t, true, false),
                  TimerCheck(t + 50), FireAttempt(t + 50, true, false),
                  TimerCheck(t + 100), FireAttempt(t + 100, true, false)];
    var g1 := Gun(false, t);
    var g2 := Gun(true, t);
    assert [] + [t] == [t];
    assert RunGun(Armed, [], steps) == RunGun(g1, [t], steps[1..]);
    assert RunGun(g1, [t], steps[1..]) == RunGun(g1, [t], steps[2..]);
    assert RunGun(g1, [t], steps[2..]) == RunGun(g1, [t], steps[3..]);
    assert RunGun(g1, [t], steps[3..]) == RunGun(g2, [t], steps[4..]);
    assert [t] + [t + 100] == [t, t + 100];
    assert RunGun(g2, [t], steps[4..]) == RunGun(Gun(false, t + 100), [t, t + 100], []);
  }
}
