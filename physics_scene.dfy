/** `PhysicsScene`: the physics lab. Five boxes and five spheres fall under a gravity that
    the chosen mode or the phone's tilt decides; an explosion kicks every body and a reset
    puts every body back where it was mounted. The physics engine itself is not modelled:
    a body is its last set state, and a kick is recorded rather than integrated. */
module PhysicsScene {
  import opened Options

  datatype GravityMode = Normal | Zero | Reverse | Chaos

  datatype Vec3 = Vec3(x: real, y: real, z: real)

  datatype Quat = Quat(x: real, y: real, z: real, w: real)

  const Identity: Quat := Quat(0.0, 0.0, 0.0, 1.0)

  const Earth: real := 9.81

  /** How far the gravity follows the phone's tilt. */
  const Sensitivity: real := 0.5

  /** The bound on each component of a chaos sample: `5·sin`, `9.81·cos`, `5·sin`. */
  predicate ChaosSample(c: Vec3)
  {
    -5.0 <= c.x <= 5.0 && -Earth <= c.y <= Earth && -5.0 <= c.z <= 5.0
  }

  /** `getGravity`. With the gyroscope on, gravity points down and leans with the tilt,
      whatever the mode; otherwise zero, reverse, the chaos sample (a function of the clock
      that is not modelled, so it comes in as `chaos`), or normal Earth gravity. */
  function Gravity(mode: GravityMode, gyroEnabled: bool, beta: real, gamma: real, chaos: Vec3): (g: Vec3)
    ensures gyroEnabled ==> g == Vec3(0.109 * gamma, -Earth, 0.109 * beta)
    ensures !gyroEnabled && mode == Zero ==> g == Vec3(0.0, 0.0, 0.0)
    ensures !gyroEnabled && mode == Reverse ==> g == Vec3(0.0, Earth, 0.0)
    ensures !gyroEnabled && mode == Normal ==> g == Vec3(0.0, -Earth, 0.0)
    ensures !gyroEnabled && mode == Chaos ==> g == chaos
  {
    if gyroEnabled then
      Vec3((gamma / 45.0) * Earth * Sensitivity, -Earth, (beta / 45.0) * Earth * Sensitivity)
    else
      match mode
      case Zero => Vec3(0.0, 0.0, 0.0)
      case Reverse => Vec3(0.0, Earth, 0.0)
      case Chaos => chaos
      case Normal => Vec3(0.0, -Earth, 0.0)
  }

  /** Without the gyroscope, gravity never exceeds Earth's vertically nor 5 sideways; reverse
      is normal gravity turned around. */
  lemma GravityBounded(mode: GravityMode, beta: real, gamma: real, chaos: Vec3)
    requires ChaosSample(chaos)
    ensures ChaosSample(Gravity(mode, false, beta, gamma, chaos))
    ensures Gravity(Reverse, false, beta, gamma, chaos).y == -Gravity(Normal, false, beta, gamma, chaos).y
  {
  }

  /** The gravity polling period in milliseconds: 50 in chaos mode, 100 otherwise. */
  function PollPeriod(mode: GravityMode): (ms: nat)
    ensures ms == 50 <==> mode == Chaos
    ensures ms == 100 <==> mode != Chaos
  {
    if mode == Chaos then 50 else 100
  }

  /** Where the ten bodies start: boxes first, then spheres. */
  const InitialPositions: seq<Vec3> := [
    Vec3(-2.0, 2.0, 0.0), Vec3(2.0, 3.0, 1.0), Vec3(0.0, 4.0, -1.0), Vec3(-3.0, 1.0, 2.0), Vec3(3.0, 2.0, -2.0),
    Vec3(1.0, 5.0, 0.0), Vec3(-1.0, 3.0, 1.0), Vec3(0.0, 2.0, 2.0), Vec3(2.0, 4.0, -1.0), Vec3(-2.0, 5.0, -1.0)
  ]

  const BodiesPerKind: nat := 5

  /** The state of a body that the scene sets. */
  datatype Body = Body(position: Vec3, rotation: Quat, linvel: Vec3, angvel: Vec3)

  /** A body standing still, unrotated, at `at`. */
  function AtRest(at: Vec3): (b: Body)
    ensures b.position == at && b.rotation == Identity
    ensures b.linvel == Vec3(0.0, 0.0, 0.0) && b.angvel == Vec3(0.0, 0.0, 0.0)
  {
    Body(at, Identity, Vec3(0.0, 0.0, 0.0), Vec3(0.0, 0.0, 0.0))
  }

  /** The reset of one entry of the concatenated body list: a mounted body with an initial
      position at its index goes back to it at rest; anything else is left alone. */
  function ResetBody(b: Option<Body>, index: nat): (r: Option<Body>)
    ensures r.Some? <==> b.Some?
    ensures b.Some? && index < |InitialPositions| ==> r == Some(AtRest(InitialPositions[index]))
    ensures index >= |InitialPositions| ==> r == b
  {
    if b.Some? && index < |InitialPositions| then Some(AtRest(InitialPositions[index])) else b
  }

  /** A value of `Math.random()`. */
  predicate Uniform(u: real)
  {
    0.0 <= u < 1.0
  }

  /** The six random values an explosion takes for one body. */
  datatype KickDraw = KickDraw(ix: real, iy: real, iz: real, tx: real, ty: real, tz: real)

  predicate ValidKickDraw(d: KickDraw)
  {
    Uniform(d.ix) && Uniform(d.iy) && Uniform(d.iz) && Uniform(d.tx) && Uniform(d.ty) && Uniform(d.tz)
  }

  const ExplosionForce: real := 15.0

  /** An explosion's kick to one body: an impulse up by 5 to 20 and sideways by up to 7.5,
      and a torque impulse of up to 5 about each axis. */
  datatype Kick = Kick(index: nat, impulse: Vec3, torque: Vec3)

  function KickFor(index: nat, d: KickDraw): (k: Kick)
    requires ValidKickDraw(d)
    ensures k.index == index
    ensures -7.5 <= k.impulse.x < 7.5 && 5.0 <= k.impulse.y < 20.0 && -7.5 <= k.impulse.z < 7.5
    ensures -5.0 <= k.torque.x < 5.0 && -5.0 <= k.torque.y < 5.0 && -5.0 <= k.torque.z < 5.0
  {
    Kick(index,
         Vec3((d.ix - 0.5) * ExplosionForce, d.iy * ExplosionForce + 5.0, (d.iz - 0.5) * ExplosionForce),
         Vec3((d.tx - 0.5) * 10.0, (d.ty - 0.5) * 10.0, (d.tz - 0.5) * 10.0))
  }

  /** The ten mounted bodies, held as the two ref lists the scene fills when it mounts. */
  class PhysicsObjects {
    var boxes: seq<Option<Body>>
    var spheres: seq<Option<Body>>

    /** Five boxes and five spheres. */
    ghost predicate Valid()
      reads this
    {
      |boxes| == BodiesPerKind && |spheres| == BodiesPerKind
    }

    /** Mounting: box `i` starts at the `i`-th of the first five initial positions, sphere `i`
        at the `i`-th of the last five. */
    constructor ()
      ensures Valid()
      ensures forall i :: 0 <= i < BodiesPerKind ==> boxes[i] == Some(AtRest(InitialPositions[..5][i]))
      ensures forall i :: 0 <= i < BodiesPerKind ==> spheres[i] == Some(AtRest(InitialPositions[5..10][i]))
    {
      var mountedBoxes := InitialPositions[..5];
      var mountedSpheres := InitialPositions[5..10];
      boxes := seq(5, i requires 0 <= i < 5 => Some(AtRest(mountedBoxes[i])));
      spheres := seq(5, i requires 0 <= i < 5 => Some(AtRest(mountedSpheres[i])));
    }

    /** The reset effect: nothing while the trigger is 0; otherwise every entry of boxes
        followed by spheres is reset by its index in that concatenation. */
    method Reset(trigger: int)
      requires Valid()
      modifies this
      ensures Valid()
      ensures trigger <= 0 ==> boxes == old(boxes) && spheres == old(spheres)
      ensures trigger > 0 ==> forall i :: 0 <= i < |boxes| ==> boxes[i] == ResetBody(old(boxes)[i], i)
      ensures trigger > 0 ==> forall i :: 0 <= i < |spheres| ==>
        spheres[i] == ResetBody(old(spheres)[i], |old(boxes)| + i)
    {
      if trigger > 0 {
        var all := boxes + spheres;
        var index := 0;
        while index < |all|
          invariant 0 <= index <= |all| == |old(boxes)| + |old(spheres)|
          invariant forall k :: 0 <= k < index ==> all[k] == ResetBody((old(boxes) + old(spheres))[k], k)
          invariant forall k :: index <= k < |all| ==> all[k] == (old(boxes) + old(spheres))[k]
        {
          all := all[index := ResetBody(all[index], index)];
          index := index + 1;
        }
        boxes := all[..|boxes|];
        spheres := all[|boxes|..];
      }
    }

    /** The explosion effect: nothing while the trigger is 0; otherwise one kick for every
        mounted body, in the order boxes then spheres. The bodies' response is the engine's
        and is not modelled. */
    method Explode(trigger: int, draws: seq<KickDraw>) returns (kicks: seq<Kick>)
      requires Valid()
      requires |draws| == |boxes| + |spheres| && forall i :: 0 <= i < |draws| ==> ValidKickDraw(draws[i])
      ensures trigger <= 0 ==> kicks == []
      ensures trigger > 0 ==> |kicks| == Mounted(boxes + spheres)
      ensures forall j :: 0 <= j < |kicks| ==>
        && kicks[j].index < |boxes| + |spheres|
        && (boxes + spheres)[kicks[j].index].Some?
        && kicks[j] == KickFor(kicks[j].index, draws[kicks[j].index])
      ensures forall j, j' :: 0 <= j < j' < |kicks| ==> kicks[j].index < kicks[j'].index
    {
      kicks := [];
      if trigger > 0 {
        var all := boxes + spheres;
        var index := 0;
        while index < |all|
          invariant 0 <= index <= |all|
          invariant |kicks| == Mounted(all[..index])
          invariant forall j :: 0 <= j < |kicks| ==>
            && kicks[j].index < index
            && all[kicks[j].index].Some?
            && kicks[j] == KickFor(kicks[j].index, draws[kicks[j].index])
          invariant forall j, j' :: 0 <= j < j' < |kicks| ==> kicks[j].index < kicks[j'].index
        {
          assert all[..index + 1] == all[..index] + [all[index]];
          MountedAppend(all[..index], all[index]);
          if all[index].Some? {
            kicks := kicks + [KickFor(index, draws[index])];
          }
          index := index + 1;
        }
        assert all[..|all|] == all;
      }
    }
  }

  /** The number of mounted bodies in a ref list. */
  function Mounted(refs: seq<Option<Body>>): (n: nat)
    ensures n <= |refs|
  {
    if |refs| == 0 then 0 else Mounted(refs[..|refs| - 1]) + (if refs[|refs| - 1].Some? then 1 else 0)
  }

  lemma MountedAppend(refs: seq<Option<Body>>, b: Option<Body>)
    ensures Mounted(refs + [b]) == Mounted(refs) + (if b.Some? then 1 else 0)
  {
    assert (refs + [b])[..|refs|] == refs;
  }

  /** A reset returns every body to where it was mounted, at rest: the resets index the
      concatenation boxes-then-spheres, which lines up with the first five initial positions
      for the boxes and the last five for the spheres. */
  lemma {:induction false} ResetRestoresMount(boxes: seq<Option<Body>>, spheres: seq<Option<Body>>, i: nat)
    requires |boxes| == BodiesPerKind && |spheres| == BodiesPerKind && i < BodiesPerKind
    ensures boxes[i].Some? ==> ResetBody(boxes[i], i) == Some(AtRest(InitialPositions[..5][i]))
    ensures spheres[i].Some? ==> ResetBody(spheres[i], |boxes| + i) == Some(AtRest(InitialPositions[5..10][i]))
  {
    assert InitialPositions[..5][i] == InitialPositions[i];
    assert InitialPositions[5..10][i] == InitialPositions[5 + i];
  }
}
