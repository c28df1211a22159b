/** `Logo`: the JSCL mark. It tilts toward the cursor, or with the phone's gyroscope
    measured from a baseline, spins once per click, and decides whether to show its
    subtitle. The spring animations, the size tables and the rendering are not modelled;
    the two motion values `x` and `y` that drive the tilt are. */
module Logo {
  import opened Options

  datatype Size = Sm | Md | Lg | Xl | Xxl

  /** `showSubtitle`: an explicit `withSubtitle` wins; by default only the three large sizes
      show it. */
  function ShowSubtitle(withSubtitle: Option<bool>, size: Size): (r: bool)
    ensures withSubtitle.Some? ==> r == withSubtitle.value
    ensures withSubtitle.None? ==> (r <==> !(size == Sm || size == Md))
  {
    match withSubtitle
    case Some(b) => b
    case None => size == Lg || size == Xl || size == Xxl
  }

  /** `Math.max(0, Math.min(1, v))`. */
  function Clamp01(v: real): (r: real)
    ensures 0.0 <= r <= 1.0
    ensures 0.0 <= v <= 1.0 ==> r == v
    ensures v < 0.0 ==> r == 0.0
    ensures v > 1.0 ==> r == 1.0
  {
    if v > 1.0 then 1.0 else if v < 0.0 then 0.0 else v
  }

  /** The tilt for a deviation from the baseline, in degrees: centred at 0.5, with 30 degrees
      either way spanning the whole range. */
  function Normalize(delta: real): (r: real)
    ensures 0.0 <= r <= 1.0
    ensures delta == 0.0 ==> r == 0.5
    ensures delta <= -30.0 ==> r == 0.0
    ensures delta >= 30.0 ==> r == 1.0
    ensures -30.0 <= delta <= 30.0 ==> r == 0.5 + delta / 60.0
  {
    Clamp01(0.5 + delta / 60.0)
  }

  /** Tilting further never moves the logo back. */
  lemma NormalizeMonotone(d1: real, d2: real)
    requires d1 <= d2
    ensures Normalize(d1) <= Normalize(d2)
  {
    assert d1 / 60.0 <= d2 / 60.0;
  }

  /** `event.beta ?? 0`. */
  function OrZero(v: Option<real>): (r: real)
    ensures v.Some? ==> r == v.value
    ensures v.None? ==> r == 0.0
  {
    if v.Some? then v.value else 0.0
  }

  /** A gyroscope reading, in degrees. */
  datatype Tilt = Tilt(beta: real, gamma: real)

  class Logo {
    const animated: bool
    const isMobile: bool
    /** The baseline reading; `None` until the first reading after mount or recalibration. */
    var calibration: Option<Tilt>
    /** The tilt motion values, 0.5 being centred. */
    var x: real
    var y: real
    var gyroEnabled: bool
    var isSpinning: bool
    /** The target of the spin spring, in degrees. */
    var spin: real
    /** Started spin timers that have not fired. */
    var pendingSpinReset: nat

    /** Exactly one spin timer is pending while spinning, and the spin target is 720 then
        and 0 otherwise. */
    ghost predicate Valid()
      reads this
    {
      && (isSpinning <==> pendingSpinReset == 1)
      && pendingSpinReset <= 1
      && spin == (if isSpinning then 720.0 else 0.0)
    }

    constructor (animated: bool, isMobile: bool)
      ensures Valid() && this.animated == animated && this.isMobile == isMobile
      ensures calibration.None? && x == 0.5 && y == 0.5
      ensures !gyroEnabled && !isSpinning && spin == 0.0
    {
      this.animated := animated;
      this.isMobile := isMobile;
      calibration := None;
      x, y := 0.5, 0.5;
      gyroEnabled, isSpinning := false, false;
      spin := 0.0;
      pendingSpinReset := 0;
    }

    /** The mount effect: an animated logo on a mobile device that is not iOS enables the
        gyroscope at once when the browser offers orientation events. */
    method AutoEnableGyro(isIOS: bool, orientationSupported: bool)
      requires Valid()
      modifies this`gyroEnabled
      ensures Valid()
      ensures gyroEnabled == (old(gyroEnabled) || (animated && isMobile && !isIOS && orientationSupported))
    {
      if !animated || !isMobile {
        return;
      }
      if isIOS {
        return;
      }
      if orientationSupported && !gyroEnabled {
        gyroEnabled := true;
      }
    }

    /** `requestGyroPermission`: nothing when already enabled; where the browser asks for
        permission the gyroscope is enabled only when it is granted, elsewhere at once. */
    method RequestGyroPermission(needsPermission: bool, granted: bool)
      requires Valid()
      modifies this`gyroEnabled
      ensures Valid()
      ensures gyroEnabled == (old(gyroEnabled) || !needsPermission || granted)
    {
      if gyroEnabled {
        return;
      }
      if needsPermission {
        if granted {
          gyroEnabled := true;
        }
      } else {
        gyroEnabled := true;
      }
    }

    /** An orientation event. A missing angle reads as 0; the first reading after mount or
        recalibration becomes the baseline, so it centres the logo; the tilt is the clamped
        deviation from the baseline. */
    method OnOrientation(beta: Option<real>, gamma: Option<real>)
      requires Valid()
      modifies this`calibration, this`x, this`y
      ensures Valid()
      ensures calibration == (if old(calibration).None? then Some(Tilt(OrZero(beta), OrZero(gamma))) else old(calibration))
      ensures x == Normalize(OrZero(gamma) - calibration.value.gamma)
      ensures y == Normalize(OrZero(beta) - calibration.value.beta)
      ensures old(calibration).None? ==> x == 0.5 && y == 0.5
      ensures 0.0 <= x <= 1.0 && 0.0 <= y <= 1.0
    {
      var b := OrZero(beta);
      var g := OrZero(gamma);
      if calibration.None? {
        calibration := Some(Tilt(b, g));
      }
      var deltaBeta := b - calibration.value.beta;
      var deltaGamma := g - calibration.value.gamma;
      y := Normalize(deltaBeta);
      x := Normalize(deltaGamma);
    }

    /** `recalibrate`: forget the baseline; the next reading sets a new one. */
    method Recalibrate()
      requires Valid()
      modifies this`calibration
      ensures Valid() && calibration.None?
    {
      calibration := None;
    }

    /** Cursor movement, given as the position relative to the logo's box (0 to 1 inside
        it); ignored when the logo is not animated or on mobile. */
    method MouseMove(relX: real, relY: real)
      requires Valid()
      modifies this`x, this`y
      ensures Valid()
      ensures !animated || isMobile ==> x == old(x) && y == old(y)
      ensures animated && !isMobile ==> x == relX && y == relY
    {
      if !animated || isMobile {
        return;
      }
      x, y := relX, relY;
    }

    /** The cursor leaving recentres the logo unless it is not animated or on mobile. */
    method MouseLeave()
      requires Valid()
      modifies this`x, this`y
      ensures Valid()
      ensures !animated || isMobile ==> x == old(x) && y == old(y)
      ensures animated && !isMobile ==> x == 0.5 && y == 0.5
    {
      if !animated || isMobile {
        return;
      }
      x, y := 0.5, 0.5;
    }

    /** A click. On mobile it asks for the gyroscope when it is not enabled yet, and
        recalibrates when it was already enabled (the handler reads the flag as it was when
        the click arrived). Unless a spin is running, it adds a full double turn and starts
        the 2000 ms timer; a click during a spin leaves the spin alone. */
    method Click(needsPermission: bool, granted: bool)
      requires Valid()
      modifies this`gyroEnabled, this`calibration, this`isSpinning, this`spin, this`pendingSpinReset
      ensures Valid()
      ensures gyroEnabled == (old(gyroEnabled) || (isMobile && (!needsPermission || granted)))
      ensures calibration == (if isMobile && old(gyroEnabled) then None else old(calibration))
      ensures old(isSpinning) ==> isSpinning && spin == old(spin) && pendingSpinReset == old(pendingSpinReset)
      ensures !old(isSpinning) ==> isSpinning && spin == old(spin) + 720.0 && pendingSpinReset == 1
    {
      var wasEnabled := gyroEnabled;
      if isMobile && !wasEnabled {
        RequestGyroPermission(needsPermission, granted);
      }
      if isMobile && wasEnabled {
        Recalibrate();
      }
      if !isSpinning {
        isSpinning := true;
        spin := spin + 720.0;
        pendingSpinReset := pendingSpinReset + 1;
      }
    }

    /** The spin timer: the spin is over and the spring jumps back to 0. */
    method SpinTimerFires()
      requires Valid() && pendingSpinReset > 0
      modifies this`isSpinning, this`spin, this`pendingSpinReset
      ensures Valid() && !isSpinning && spin == 0.0 && pendingSpinReset == old(pendingSpinReset) - 1
    {
      isSpinning := false;
      spin := 0.0;
      pendingSpinReset := pendingSpinReset - 1;
    }
  }

  /** Two quick clicks give one double turn, and the timer brings the logo back to rest;
      a reading after a recalibration centres the logo again. */
  method SpinAndRecalibrate()
  {
    var logo := new Logo(true, true);
    logo.Click(false, false);
    assert logo.gyroEnabled && logo.spin == 720.0;
    logo.Click(false, false);
    assert logo.spin == 720.0 && logo.pendingSpinReset == 1 && logo.calibration.None?;
    logo.SpinTimerFires();
    assert !logo.isSpinning && logo.spin == 0.0;
    logo.OnOrientation(Some(10.0), None);
    logo.OnOrientation(Some(40.0), Some(-15.0));
    assert logo.y == 1.0 && logo.x == 0.25;
    logo.Recalibrate();
    logo.OnOrientation(Some(40.0), Some(-15.0));
    assert logo.x == 0.5 && logo.y == 0.5;
  }
}
