/**
 * The display front end: the cyclic-screen index of the bound driver, and
 * the screensaver that blanks the panel after a period without user
 * activity and restores the screen it left on wake. The driver is a record
 * of its cyclic-screen index and count and of how many times its
 * `alternateScreenState`, `alternateScreenRotation` and `initDisplay` ran;
 * drawing itself is not modelled.
 */
module DisplayControl {
  import opened Unsigned

  datatype Driver = Driver(currentScreen: nat, numScreens: nat, toggles: nat, rotations: nat, inits: nat)

  /** The globals `lastActivityTime`, `lastActiveScreen` and `isScreensaverActive`, and the driver. */
  datatype ScreenState = ScreenState(lastActivityTime: ULong, lastActiveScreen: Byte, active: bool, driver: Driver)

  /** The driver has screens, and both the current and the remembered index name one of them. */
  predicate IndexOk(s: ScreenState) {
    0 < s.driver.numScreens
    && s.driver.currentScreen < s.driver.numScreens
    && s.lastActiveScreen < s.driver.numScreens
  }

  /** `(unsigned long)ScreensaverTimeout * 60 * 1000`, which wraps modulo 2^32. */
  function TimeoutMs(timeoutMin: ULong): ULong {
    Wrap(timeoutMin * 60 * 1000)
  }

  function Toggled(d: Driver): Driver {
    d.(toggles := d.toggles + 1)
  }

  /** `initDisplay`. */
  function InitDisplayStep(s: ScreenState, now: ULong): (r: ScreenState)
    ensures IndexOk(s) ==> IndexOk(r)
    ensures !r.active && r.lastActivityTime == now
  {
    s.(lastActivityTime := now, active := false, driver := s.driver.(inits := s.driver.inits + 1))
  }

  /** `updateActivityTime`. */
  function UpdateActivityStep(s: ScreenState, now: ULong): (r: ScreenState)
    ensures IndexOk(s) ==> IndexOk(r)
  {
    s.(lastActivityTime := now)
  }

  /** `wakeFromScreensaver`: turn the panel back on and restore the remembered screen. */
  function Wake(s: ScreenState): (r: ScreenState)
    ensures IndexOk(s) ==> IndexOk(r)
    ensures !r.active
  {
    if !s.active then s
    else s.(active := false, driver := Toggled(s.driver).(currentScreen := s.lastActiveScreen))
  }

  /** `alternateScreenState`: while the screensaver is on, a wake instead of a toggle. */
  function AlternateStateStep(s: ScreenState, now: ULong): (r: ScreenState)
    ensures IndexOk(s) ==> IndexOk(r)
  {
    if s.active then Wake(UpdateActivityStep(s, now))
    else UpdateActivityStep(s, now).(driver := Toggled(s.driver))
  }

  /** `alternateScreenRotation`: while the screensaver is on, a wake instead of a rotation. */
  function AlternateRotationStep(s: ScreenState, now: ULong): (r: ScreenState)
    ensures IndexOk(s) ==> IndexOk(r)
  {
    if s.active then Wake(UpdateActivityStep(s, now))
    else UpdateActivityStep(s, now).(driver := s.driver.(rotations := s.driver.rotations + 1))
  }

  /** `resetToFirstScreen`. */
  function ResetStep(s: ScreenState): (r: ScreenState)
    ensures IndexOk(s) ==> IndexOk(r)
  {
    s.(driver := s.driver.(currentScreen := 0))
  }

  /** `switchToNextScreen`: while the screensaver is on, a wake instead of an advance. */
  function NextScreenStep(s: ScreenState, now: ULong): (r: ScreenState)
    requires 0 < s.driver.numScreens
    ensures IndexOk(s) ==> IndexOk(r)
    ensures !s.active ==> r.driver.currentScreen < r.driver.numScreens
  {
    if s.active then Wake(UpdateActivityStep(s, now))
    else
      var t := UpdateActivityStep(s, now);
      t.(driver := t.driver.(currentScreen := (s.driver.currentScreen + 1) % s.driver.numScreens))
  }

  /**
   * `checkScreensaver`: with the feature on and the screensaver off, a clock
   * that went backwards only resets the activity time; otherwise, once the
   * inactivity reaches the timeout, the current screen (as `uint8_t`) is
   * remembered and the panel is blanked.
   */
  function CheckScreensaverStep(s: ScreenState, timeoutMin: ULong, now: ULong): (r: ScreenState)
    ensures IndexOk(s) ==> IndexOk(r)
  {
    if timeoutMin == 0 || s.active then s
    else if now < s.lastActivityTime then s.(lastActivityTime := now)
    else if Minus(now, s.lastActivityTime) >= TimeoutMs(timeoutMin) then
      s.(lastActiveScreen := s.driver.currentScreen % 256, active := true, driver := Toggled(s.driver))
    else s
  }

  /** Disabled, or already active: the check changes nothing. */
  lemma CheckScreensaverGuards(s: ScreenState, timeoutMin: ULong, now: ULong)
    requires timeoutMin == 0 || s.active
    ensures CheckScreensaverStep(s, timeoutMin, now) == s
  {
  }

  /** After `millis()` wrapped, the check only restarts the inactivity period. */
  lemma CheckScreensaverClockWrap(s: ScreenState, timeoutMin: ULong, now: ULong)
    requires timeoutMin > 0 && !s.active && now < s.lastActivityTime
    ensures CheckScreensaverStep(s, timeoutMin, now) == s.(lastActivityTime := now)
  {
  }

  /**
   * The screensaver activates exactly when the inactivity reaches the
   * timeout; activating remembers the index, blanks the panel with a single
   * toggle and changes nothing else, and not activating changes nothing.
   */
  lemma CheckScreensaverActivation(s: ScreenState, timeoutMin: ULong, now: ULong)
    requires timeoutMin > 0 && !s.active && s.lastActivityTime <= now
    ensures CheckScreensaverStep(s, timeoutMin, now).active <==> now - s.lastActivityTime >= TimeoutMs(timeoutMin)
    ensures CheckScreensaverStep(s, timeoutMin, now).active ==>
              CheckScreensaverStep(s, timeoutMin, now)
              == s.(lastActiveScreen := s.driver.currentScreen % 256, active := true, driver := Toggled(s.driver))
    ensures !CheckScreensaverStep(s, timeoutMin, now).active ==> CheckScreensaverStep(s, timeoutMin, now) == s
  {
  }

  /**
   * While the screensaver is on, each user action restarts the inactivity
   * period and wakes: one toggle in total, no rotation, and the index is the
   * remembered one rather than advanced.
   */
  lemma UserActionWhileActive(s: ScreenState, now: ULong)
    requires s.active && 0 < s.driver.numScreens
    ensures var r := s.(lastActivityTime := now, active := false,
                        driver := Toggled(s.driver).(currentScreen := s.lastActiveScreen));
      && NextScreenStep(s, now) == r
      && AlternateStateStep(s, now) == r
      && AlternateRotationStep(s, now) == r
  {
  }

  /**
   * With the screensaver off, each user action restarts the inactivity
   * period and does its own job only: the next screen modulo the count, one
   * toggle, or one rotation.
   */
  lemma UserActionWhileInactive(s: ScreenState, now: ULong)
    requires !s.active && 0 < s.driver.numScreens
    ensures NextScreenStep(s, now)
            == s.(lastActivityTime := now,
                  driver := s.driver.(currentScreen := (s.driver.currentScreen + 1) % s.driver.numScreens))
    ensures AlternateStateStep(s, now) == s.(lastActivityTime := now, driver := Toggled(s.driver))
    ensures AlternateRotationStep(s, now)
            == s.(lastActivityTime := now, driver := s.driver.(rotations := s.driver.rotations + 1))
  {
  }

  /**
   * Blank then wake comes back to the screen shown at blank time, with the
   * panel toggled twice in all, whether the wake is explicit or comes from
   * a user action.
   */
  lemma ActivateThenWakeRestores(s: ScreenState, timeoutMin: ULong, t1: ULong, t2: ULong)
    requires IndexOk(s) && s.driver.currentScreen < 256
    requires timeoutMin > 0 && !s.active && s.lastActivityTime <= t1
    requires t1 - s.lastActivityTime >= TimeoutMs(timeoutMin)
    ensures var a := CheckScreensaverStep(s, timeoutMin, t1);
      && a.active
      && Wake(a).driver == Toggled(Toggled(s.driver))
      && !Wake(a).active
      && NextScreenStep(a, t2).driver == Toggled(Toggled(s.driver))
      && AlternateStateStep(a, t2).driver == Toggled(Toggled(s.driver))
      && AlternateRotationStep(a, t2).driver == Toggled(Toggled(s.driver))
  {
    var a := CheckScreensaverStep(s, timeoutMin, t1);
    assert a.lastActiveScreen == s.driver.currentScreen;
  }

  /** A wake while the screensaver is off changes nothing: no toggle and no restore. */
  lemma WakeWhenInactiveIsNoOp(s: ScreenState)
    requires !s.active
    ensures Wake(s) == s
  {
  }

  /**
   * A reset moves to screen 0 and changes nothing else. The remembered
   * screen is not touched, so a reset while the screensaver is on is undone
   * by the wake that follows.
   */
  lemma ResetTouchesOnlyIndex(s: ScreenState)
    ensures ResetStep(s).driver.currentScreen == 0
    ensures ResetStep(s).(driver := s.driver) == s
    ensures ResetStep(s).driver.(currentScreen := s.driver.currentScreen) == s.driver
    ensures s.active ==> Wake(ResetStep(s)).driver.currentScreen == s.lastActiveScreen
  {
  }

  /** The screensaver state and the bound display driver. */
  class Display {
    var lastActivityTime: ULong
    var lastActiveScreen: Byte
    var isScreensaverActive: bool
    var driver: Driver

    function State(): ScreenState
      reads this
    {
      ScreenState(lastActivityTime, lastActiveScreen, isScreensaverActive, driver)
    }

    ghost predicate Valid()
      reads this
    {
      IndexOk(State())
    }

    /** The globals' initial values and the driver chosen at build time. */
    constructor (d: Driver)
      requires 0 < d.numScreens && d.currentScreen < d.numScreens
      ensures Valid() && State() == ScreenState(0, 0, false, d)
    {
      lastActivityTime, lastActiveScreen, isScreensaverActive := 0, 0, false;
      driver := d;
    }

    method InitDisplay(now: ULong)
      requires Valid()
      modifies this
      ensures Valid() && State() == InitDisplayStep(old(State()), now)
    {
      driver := driver.(inits := driver.inits + 1);
      lastActivityTime := now;
      isScreensaverActive := false;
    }

    method UpdateActivityTime(now: ULong)
      requires Valid()
      modifies this
      ensures Valid() && State() == UpdateActivityStep(old(State()), now)
    {
      lastActivityTime := now;
    }

    method WakeFromScreensaver()
      requires Valid()
      modifies this
      ensures Valid() && State() == Wake(old(State()))
    {
      if !isScreensaverActive {
        return;
      }
      isScreensaverActive := false;
      driver := Toggled(driver);
      driver := driver.(currentScreen := lastActiveScreen);
    }

    method AlternateScreenState(now: ULong)
      requires Valid()
      modifies this
      ensures Valid() && State() == AlternateStateStep(old(State()), now)
    {
      if isScreensaverActive {
        UpdateActivityTime(now);
        WakeFromScreensaver();
        return;
      }
      UpdateActivityTime(now);
      driver := Toggled(driver);
    }

    method AlternateScreenRotation(now: ULong)
      requires Valid()
      modifies this
      ensures Valid() && State() == AlternateRotationStep(old(State()), now)
    {
      if isScreensaverActive {
        UpdateActivityTime(now);
        WakeFromScreensaver();
        return;
      }
      UpdateActivityTime(now);
      driver := driver.(rotations := driver.rotations + 1);
    }

    method ResetToFirstScreen()
      requires Valid()
      modifies this
      ensures Valid() && State() == ResetStep(old(State()))
    {
      driver := driver.(currentScreen := 0);
    }

    method SwitchToNextScreen(now: ULong)
      requires Valid()
      modifies this
      ensures Valid() && State() == NextScreenStep(old(State()), now)
    {
      if isScreensaverActive {
        UpdateActivityTime(now);
        WakeFromScreensaver();
        return;
      }
      UpdateActivityTime(now);
      driver := driver.(currentScreen := (driver.currentScreen + 1) % driver.numScreens);
    }

    /** `drawCurrentScreen`: the index of the screen drawn, always one the driver has. */
    method DrawCurrentScreen(mElapsed: ULong) returns (drawn: nat)
      requires Valid()
      ensures drawn == driver.currentScreen && drawn < driver.numScreens
    {
      drawn := driver.currentScreen;
    }

    method CheckScreensaver(timeoutMin: ULong, now: ULong)
      requires Valid()
      modifies this
      ensures Valid() && State() == CheckScreensaverStep(old(State()), timeoutMin, now)
    {
      if timeoutMin == 0 {
        return;
      }
      if isScreensaverActive {
        return;
      }
      var currentTime := now;
      var timeoutMs := Wrap(timeoutMin * 60 * 1000);
      if currentTime < lastActivityTime {
        lastActivityTime := currentTime;
        return;
      }
      if Minus(currentTime, lastActivityTime) >= timeoutMs {
        lastActiveScreen := driver.currentScreen % 256;
        isScreensaverActive := true;
        driver := Toggled(driver);
      }
    }
  }
}
