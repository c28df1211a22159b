/** `ContactSuccessAnimation`: after a contact submission, "TRANSMISSION COMPLETE" is
    scrambled and revealed left to right, one character every two ticks of a 40 ms
    interval; spaces are never scrambled. When the interval stops it schedules `onComplete`.

    The counter `iteration`, which grows by 0.5 per tick, is modelled by the number of half
    steps `h`, with `iteration == h / 2`; random characters are draws supplied by the caller. */
module SuccessAnimation {
  /** The text being revealed. */
  const Target: string := "TRANSMISSION COMPLETE"
  /** The scramble alphabet. */
  const Chars: string := "ABCDEFGHIJKLMNOPQRSTUVWXYZ0123456789!@#$%^&*"

  /** One tick's random draws: one alphabet character per position of a text of length `n`. */
  predicate IsNoise(noise: string, n: nat)
  {
    |noise| == n && forall i :: 0 <= i < |noise| ==> noise[i] in Chars
  }

  /** At half step `h` position `i` passes the test `index < iteration`, i.e. `i < h / 2`. */
  predicate Revealed(i: nat, h: nat)
  {
    2 * i < h
  }

  /** The per-position mapping applied to `target`: a space stays a space, a revealed
      position shows its own character and any other position a random draw. */
  function Scramble(target: string, noise: string, h: nat): (r: string)
    requires IsNoise(noise, |target|)
    ensures |r| == |target|
    ensures forall i :: 0 <= i < |r| && target[i] == ' ' ==> r[i] == ' '
    ensures forall i :: 0 <= i < |r| && target[i] != ' ' && Revealed(i, h) ==> r[i] == target[i]
    ensures forall i :: 0 <= i < |r| && target[i] != ' ' && !Revealed(i, h) ==>
      r[i] == noise[i] && r[i] in Chars
    decreases |target|
  {
    if |target| == 0 then []
    else
      var n := |target| - 1;
      var c := if target[n] == ' ' then ' '
               else if Revealed(n, h) then target[n]
               else noise[n];
      Scramble(target[..n], noise[..n], h) + [c]
  }

  /** The string rendered at half step `h`. */
  function Frame(noise: string, h: nat): (r: string)
    requires IsNoise(noise, |Target|)
  {
    Scramble(Target, noise, h)
  }

  /** From half step `2 * |Target| - 1` on, every position is revealed and the frame is
      exactly the target; in particular the last frame the interval renders, at
      `iteration == length + 0.5`, is the target. */
  lemma {:induction false} FrameComplete(noise: string, h: nat)
    requires IsNoise(noise, |Target|)
    requires h + 1 >= 2 * |Target|
    ensures Frame(noise, h) == Target
  {
    var r := Frame(noise, h);
    forall i | 0 <= i < |Target| ensures r[i] == Target[i] {
      assert Revealed(i, h);
    }
  }

  /** The one space of the target is at index 12 in every frame. */
  lemma SpaceKept(noise: string, h: nat)
    requires IsNoise(noise, |Target|)
    ensures |Frame(noise, h)| == 21 && Frame(noise, h)[12] == ' '
  {
    assert Target[12] == ' ';
  }

  /** The interval run to its end. Each tick renders the frame for the current half step,
      then adds half a step, and at the first `iteration >= length + 1` clears the interval
      and schedules `onComplete` once. It returns every rendered frame and the number of
      `onComplete` callbacks scheduled. */
  method Animate(noises: seq<string>) returns (frames: seq<string>, completions: nat)
    requires |noises| == 2 * |Target| + 2
    requires forall j :: 0 <= j < |noises| ==> IsNoise(noises[j], |Target|)
    ensures |frames| == 2 * |Target| + 2
    ensures forall j :: 0 <= j < |frames| ==> frames[j] == Frame(noises[j], j)
    ensures frames[|frames| - 1] == Target
    ensures completions == 1
  {
    var maxIterations := |Target|;
    assert maxIterations == 21;
    var h := 0;
    var running := true;
    frames, completions := [], 0;
    while running
      invariant maxIterations == |Target| == 21
      invariant h <= 2 * maxIterations + 2
      invariant running <==> h < 2 * maxIterations + 2
      invariant |frames| == h
      invariant forall j :: 0 <= j < h ==> frames[j] == Frame(noises[j], j)
      invariant completions == if running then 0 else 1
      decreases 2 * maxIterations + 2 - h
    {
      var frame := Frame(noises[h], h);
      frames := frames + [frame];
      h := h + 1;
      if h >= 2 * (maxIterations + 1) {
        running := false;
        completions := completions + 1;
      }
    }
    FrameComplete(noises[h - 1], h - 1);
  }
}
