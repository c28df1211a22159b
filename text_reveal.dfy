/** `TextReveal`: a span whose text, each time it scrolls into view, is scrambled and then
    revealed left to right, one character every three ticks of a 30 ms interval.

    The interval's fractional counter (`iteration += 1/3`) is modelled by the integer tick
    number `k`, with `iteration == k / 3`; random characters are draws supplied by the
    caller, each from the fixed alphabet. */
module TextReveal {
  /** The scramble alphabet. */
  const Chars: string := "!@#$%^&*()_+-=[]{}|;:,.<>/?0123456789ABCDEFGHIJKLMNOPQRSTUVWXYZ"

  /** One tick's random draws: one alphabet character per position of a text of length `n`. */
  predicate IsNoise(noise: string, n: nat)
  {
    |noise| == n && forall i :: 0 <= i < |noise| ==> noise[i] in Chars
  }

  /** At tick `k` position `i` passes the test `index < iteration`, that is `i < k / 3`. */
  predicate Revealed(i: nat, k: nat)
  {
    3 * i < k
  }

  /** The string a tick sets: `children` split into characters, each revealed position
      showing its own character and every other position a random draw. */
  function Frame(children: string, noise: string, k: nat): (r: string)
    requires IsNoise(noise, |children|)
    ensures |r| == |children|
    ensures forall i :: 0 <= i < |r| && Revealed(i, k) ==> r[i] == children[i]
    ensures forall i :: 0 <= i < |r| && !Revealed(i, k) ==> r[i] == noise[i] && r[i] in Chars
    decreases |children|
  {
    if |children| == 0 then []
    else
      var n := |children| - 1;
      Frame(children[..n], noise[..n], k) + [if Revealed(n, k) then children[n] else noise[n]]
  }

  /** Revealed positions only grow: whatever was revealed at tick `k` is still revealed,
      showing its own character, at every later tick, whatever the draws. */
  lemma RevealedOnlyGrows(children: string, noise: string, k: nat, k': nat, i: nat)
    requires IsNoise(noise, |children|)
    requires k <= k' && i < |children| && Revealed(i, k)
    ensures Revealed(i, k') && Frame(children, noise, k')[i] == children[i]
  {
  }

  /** Once every position is revealed (from tick `3 * |children|`, where the interval also
      stops) the frame is exactly `children`. */
  lemma {:induction false} FrameComplete(children: string, noise: string, k: nat)
    requires IsNoise(noise, |children|)
    requires k >= 3 * |children|
    ensures Frame(children, noise, k) == children
  {
    var r := Frame(children, noise, k);
    assert forall i :: 0 <= i < |r| ==> Revealed(i, k);
  }

  /** The component's state. `runs` holds the tick number of every interval still running:
      the interval's own cleanup is returned from inside the start timeout and is never
      called, so leaving the viewport does not stop an interval that has begun, and a
      quick exit and re-entry can start a second one beside it. */
  class TextReveal {
    const children: string
    var displayText: string
    var isAnimating: bool
    var hasStarted: bool
    /** The start timeout has been set and has neither fired nor been cleared. */
    var startPending: bool
    var runs: seq<nat>

    /** The shown text always has the length of `children`; a start is pending only while
        animating; no running interval is past its stopping tick. */
    ghost predicate Valid()
      reads this
    {
      && |displayText| == |children|
      && (startPending ==> isAnimating)
      && forall r :: 0 <= r < |runs| ==> runs[r] <= 3 * |children|
    }

    constructor (children: string)
      ensures Valid()
      ensures this.children == children && displayText == children
      ensures !isAnimating && !hasStarted && !startPending && runs == []
    {
      this.children := children;
      displayText := children;
      isAnimating, hasStarted, startPending := false, false, false;
      runs := [];
    }

    /** The effect with `isInView` true: unless already animating, mark the animation
        started and set the start timeout. */
    method EnterView()
      requires Valid()
      modifies this
      ensures Valid()
      ensures old(isAnimating) ==> unchanged(this)
      ensures !old(isAnimating) ==>
        && isAnimating && hasStarted && startPending
        && displayText == old(displayText) && runs == old(runs)
    {
      if isAnimating {
        return;
      }
      hasStarted := true;
      isAnimating := true;
      startPending := true;
    }

    /** The effect with `isInView` false: the previous run's cleanup clears a pending start
        timeout, and the text and both flags are reset. Running intervals go on. */
    method LeaveView()
      requires Valid()
      modifies this
      ensures Valid()
      ensures displayText == children && !isAnimating && !hasStarted && !startPending
      ensures runs == old(runs)
    {
      startPending := false;
      isAnimating := false;
      hasStarted := false;
      displayText := children;
    }

    /** The start timeout fires and starts an interval at tick 0. */
    method StartFires()
      requires Valid() && startPending
      modifies this
      ensures Valid()
      ensures !startPending && runs == old(runs) + [0]
      ensures displayText == old(displayText)
      ensures isAnimating == old(isAnimating) && hasStarted == old(hasStarted)
    {
      startPending := false;
      runs := runs + [0];
    }

    /** One 30 ms tick of running interval `r`: show the frame for its tick; at tick
        `3 * |children|` (iteration >= length) clear the interval and show `children`;
        otherwise advance the tick. */
    method Tick(r: nat, noise: string)
      requires Valid() && r < |runs| && IsNoise(noise, |children|)
      modifies this
      ensures Valid()
      ensures old(runs[r]) >= 3 * |children| ==>
        displayText == children && runs == old(runs[..r] + runs[r + 1..])
      ensures old(runs[r]) < 3 * |children| ==>
        displayText == Frame(children, noise, old(runs[r])) && runs == old(runs[r := runs[r] + 1])
      ensures isAnimating == old(isAnimating) && hasStarted == old(hasStarted)
      ensures startPending == old(startPending)
    {
      var k := runs[r];
      displayText := Frame(children, noise, k);
      if k >= 3 * |children| {
        runs := runs[..r] + runs[r + 1..];
        displayText := children;
      } else {
        runs := runs[r := k + 1];
      }
    }
  }
}
