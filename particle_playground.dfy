/** `ParticlePlayground`: a canvas of bouncing balls. Pressing spawns balls, a frame moves
    every ball, bounces it off the walls, records its trail and drops the balls that have
    fallen far below the canvas; a button clears them all.

    The particle list and its displayed count are fields of a class. Random draws are
    parameters, and the floating-point dynamics (gravity, mouse force, friction, the
    position update, and the collision response between balls) enter a frame as two
    arbitrary functions, so that what is proved holds whatever they compute. */
module ParticlePlayground {
  datatype Pos = Pos(x: real, y: real)

  datatype Particle = Particle(x: real, y: real, vx: real, vy: real, radius: real, mass: real,
                               color: string, trail: seq<Pos>)

  /** Position and velocity, as produced by the left-out dynamics. */
  datatype Motion = Motion(x: real, y: real, vx: real, vy: real)

  /** The palette a new particle's colour is drawn from. */
  const Colors: seq<string> := [
    "rgba(17, 17, 17, 0.9)",
    "rgba(50, 50, 50, 0.9)",
    "rgba(80, 80, 80, 0.9)",
    "rgba(120, 120, 120, 0.8)",
    "rgba(160, 160, 160, 0.7)"
  ]

  /** The most positions a trail keeps. */
  const TrailMax: nat := 15

  /** A value of `Math.random()`. */
  predicate Uniform(u: real)
  {
    0.0 <= u < 1.0
  }

  /** The four `Math.random()` values `createParticle` takes: radius, two velocity jitters
      and colour. */
  datatype ParticleDraw = ParticleDraw(radius: real, vx: real, vy: real, color: real)

  predicate ValidDraw(d: ParticleDraw)
  {
    Uniform(d.radius) && Uniform(d.vx) && Uniform(d.vy) && Uniform(d.color)
  }

  /** `Math.floor(u * colors.length)`: always an index of the palette. */
  function ColorIndex(u: real): (i: nat)
    requires Uniform(u)
    ensures i < |Colors|
  {
    var f := (u * 5.0).Floor;
    assert f as real <= u * 5.0 < 5.0;
    f
  }

  /** What the rest of the model relies on about a particle: its radius is in [4, 12), its
      mass is the square of its radius, and its trail holds at most `TrailMax` positions. */
  predicate WellFormed(p: Particle)
  {
    4.0 <= p.radius < 12.0 && p.mass == p.radius * p.radius && |p.trail| <= TrailMax
  }

  /** `createParticle(x, y, vx, vy)`: a ball at `(x, y)` whose velocity is the given one
      jittered by up to 2 in each direction. */
  function CreateParticle(x: real, y: real, vx: real, vy: real, d: ParticleDraw): (p: Particle)
    requires ValidDraw(d)
    ensures p.x == x && p.y == y && p.trail == []
    ensures 4.0 <= p.radius < 12.0 && p.mass == p.radius * p.radius && WellFormed(p)
    ensures vx - 2.0 <= p.vx < vx + 2.0 && vy - 2.0 <= p.vy < vy + 2.0
    ensures p.color in Colors
  {
    var radius := d.radius * 8.0 + 4.0;
    Particle(x, y, vx + (d.vx - 0.5) * 4.0, vy + (d.vy - 0.5) * 4.0, radius, radius * radius,
             Colors[ColorIndex(d.color)], [])
  }

  /** The fraction of velocity kept, reversed, by a bounce. */
  const BounceLoss: real := 0.7

  /** The horizontal walls of a frame. A ball that crosses the left or right wall is put
      back against it with its horizontal velocity reversed and reduced; for a canvas at
      least one diameter wide it then lies between the walls. */
  function BounceX(p: Particle, width: real): (q: Particle)
    ensures width >= 2.0 * p.radius ==> p.radius <= q.x <= width - p.radius
    ensures p.x - p.radius < 0.0 || p.x + p.radius > width ==> q.vx == -BounceLoss * p.vx
    ensures 0.0 <= p.x - p.radius && p.x + p.radius <= width ==> q == p
    ensures q.y == p.y && q.vy == p.vy && q.radius == p.radius && q.mass == p.mass
    ensures q.color == p.color && q.trail == p.trail
  {
    if p.x - p.radius < 0.0 then p.(x := p.radius, vx := p.vx * -BounceLoss)
    else if p.x + p.radius > width then p.(x := width - p.radius, vx := p.vx * -BounceLoss)
    else p
  }

  /** The vertical walls of a frame, likewise; a ball that hits the floor and is left
      almost at rest gets a small horizontal nudge `(jitter - 0.5) * 0.3`. */
  function BounceY(p: Particle, height: real, jitter: real): (q: Particle)
    requires Uniform(jitter)
    ensures height >= 2.0 * p.radius ==> p.radius <= q.y <= height - p.radius
    ensures p.y - p.radius < 0.0 || p.y + p.radius > height ==> q.vy == -BounceLoss * p.vy
    ensures 0.0 <= p.y - p.radius && p.y + p.radius <= height ==> q == p
    ensures p.y - p.radius >= 0.0 ==> -0.15 <= q.vx - p.vx < 0.15
    ensures p.y - p.radius >= 0.0 && p.y + p.radius > height && -0.5 < q.vy < 0.5 ==>
      q.vx == p.vx + (jitter - 0.5) * 0.3
    ensures p.y - p.radius >= 0.0 && p.y + p.radius > height && !(-0.5 < q.vy < 0.5) ==> q.vx == p.vx
    ensures p.y - p.radius < 0.0 ==> q.vx == p.vx
    ensures q.x == p.x && q.radius == p.radius && q.mass == p.mass
    ensures q.color == p.color && q.trail == p.trail
  {
    if p.y - p.radius < 0.0 then p.(y := p.radius, vy := p.vy * -BounceLoss)
    else if p.y + p.radius > height then
      var vy := p.vy * -BounceLoss;
      var vx := if -0.5 < vy < 0.5 then p.vx + (jitter - 0.5) * 0.3 else p.vx;
      p.(y := height - p.radius, vy := vy, vx := vx)
    else p
  }

  /** The trail update: with trails on, push the position and shift once past `TrailMax`;
      with trails off, empty the trail. */
  function TrailStep(trail: seq<Pos>, at: Pos, showTrails: bool): (r: seq<Pos>)
    ensures !showTrails ==> r == []
    ensures showTrails && |trail| <= TrailMax ==> 1 <= |r| <= TrailMax && r[|r| - 1] == at
  {
    if showTrails then
      var pushed := trail + [at];
      if |pushed| > TrailMax then pushed[1..] else pushed
    else []
  }

  /** With trails on, the trail keeps the newest positions: all of them with `at` added
      while fewer than `TrailMax` were held, otherwise the oldest is dropped. */
  lemma TrailStepKeepsNewest(trail: seq<Pos>, at: Pos)
    ensures var r := TrailStep(trail, at, true);
      && |r| == (if |trail| < TrailMax then |trail| + 1 else |trail|)
      && r == (trail + [at])[|trail| + 1 - |r|..]
  {
  }

  /** A ball moved to the given position and velocity; size, colour and trail are kept. */
  function WithMotion(p: Particle, m: Motion): (q: Particle)
    ensures q.radius == p.radius && q.mass == p.mass && q.color == p.color && q.trail == p.trail
    ensures Pos(q.x, q.y) == Pos(m.x, m.y) && q.vx == m.vx && q.vy == m.vy
  {
    p.(x := m.x, y := m.y, vx := m.vx, vy := m.vy)
  }

  /** The part of a ball's frame update before collisions: the dynamics, then the walls. */
  function Advance(p: Particle, width: real, height: real, forces: Particle -> Motion, jitter: real): (q: Particle)
    requires Uniform(jitter)
    ensures q.radius == p.radius && q.mass == p.mass && q.color == p.color && q.trail == p.trail
    ensures width >= 2.0 * p.radius ==> p.radius <= q.x <= width - p.radius
    ensures height >= 2.0 * p.radius ==> p.radius <= q.y <= height - p.radius
  {
    BounceY(BounceX(WithMotion(p, forces(p)), width), height, jitter)
  }

  /** Without the collision pass, the walls alone keep every ball from ever meeting the
      removal test `y > height + 100`: only collision separation can push a ball that far. */
  lemma WallsKeepOnCanvas(p: Particle, width: real, height: real, forces: Particle -> Motion, jitter: real)
    requires Uniform(jitter) && WellFormed(p) && height >= 0.0
    ensures Advance(p, width, height, forces, jitter).y <= height + FallLimit
  {
  }

  /** What a ball satisfies once the frame loop has passed it and kept it: it is not below
      `height + 100`, and its trail ends at its position when trails are on and is empty
      when they are off. */
  predicate Settled(q: Particle, height: real, showTrails: bool)
  {
    && q.y <= height + FallLimit
    && (showTrails ==> |q.trail| >= 1 && q.trail[|q.trail| - 1] == Pos(q.x, q.y))
    && (!showTrails ==> q.trail == [])
  }

  /** How far below the canvas a ball may fall before a frame removes it. */
  const FallLimit: real := 100.0

  /** Only motion differs between `q` and `p`: size, mass, colour and trail are the same. */
  predicate SameBody(q: Particle, p: Particle)
  {
    q.radius == p.radius && q.mass == p.mass && q.color == p.color && q.trail == p.trail
  }

  /** `q` is ball `p` after its frame update: size, mass and colour are kept, and the trail
      is `p`'s trail stepped to `q`'s new position. */
  predicate Processed(q: Particle, p: Particle, showTrails: bool)
  {
    && q.radius == p.radius && q.mass == p.mass && q.color == p.color
    && q.trail == TrailStep(p.trail, Pos(q.x, q.y), showTrails)
  }

  /** The frame's removal test: the ball is more than `FallLimit` below the canvas. */
  predicate Fallen(q: Particle, height: real)
  {
    q.y > height + FallLimit
  }

  /** The balls of `ps` that fail the frame's removal test `y > height + 100`, in order. */
  function Kept(ps: seq<Particle>, height: real): (r: seq<Particle>)
    ensures |r| <= |ps|
    decreases |ps|
  {
    if |ps| == 0 then []
    else (if Fallen(ps[0], height) then [] else [ps[0]]) + Kept(ps[1..], height)
  }

  /** Every kept ball is a ball of the list that has not fallen, and every ball of the
      list that has not fallen is kept. */
  lemma {:induction false} KeptMembers(ps: seq<Particle>, height: real)
    ensures forall q :: q in Kept(ps, height) ==> q in ps && !Fallen(q, height)
    ensures forall k :: 0 <= k < |ps| && !Fallen(ps[k], height) ==> ps[k] in Kept(ps, height)
    decreases |ps|
  {
    if |ps| > 0 {
      KeptMembers(ps[1..], height);
      assert forall k :: 1 <= k < |ps| ==> ps[k] == ps[1..][k - 1];
    }
  }

  /** Keeping the balls of a longer list adds at most the last ball. */
  lemma {:induction false} KeptSnoc(ps: seq<Particle>, p: Particle, height: real)
    ensures Kept(ps + [p], height) == Kept(ps, height) + (if Fallen(p, height) then [] else [p])
    decreases |ps|
  {
    if |ps| == 0 {
      assert ps + [p] == [p];
    } else {
      var longer := ps + [p];
      assert longer[0] == ps[0] && longer[1..] == ps[1..] + [p];
      KeptSnoc(ps[1..], p, height);
      var head := if Fallen(ps[0], height) then [] else [ps[0]];
      var tail := if Fallen(p, height) then [] else [p];
      assert Kept(longer, height) == head + (Kept(ps[1..], height) + tail);
      assert Kept(ps, height) == head + Kept(ps[1..], height);
    }
  }

  /** The indices of the balls of `ps` that pass the removal test. */
  function FallenIndices(ps: seq<Particle>, height: real): set<int>
  {
    set k | 0 <= k < |ps| && Fallen(ps[k], height)
  }

  /** Adding a ball at the end adds at most its own index. */
  lemma FallenIndicesSnoc(ps: seq<Particle>, p: Particle, height: real)
    ensures |ps| !in FallenIndices(ps, height)
    ensures FallenIndices(ps + [p], height) ==
      FallenIndices(ps, height) + (if Fallen(p, height) then {|ps|} else {})
  {
    assert forall k :: 0 <= k < |ps| ==> (ps + [p])[k] == ps[k];
  }

  /** A list loses exactly as many balls as pass the removal test. */
  lemma {:induction false} KeptCount(ps: seq<Particle>, height: real)
    ensures |Kept(ps, height)| == |ps| - |FallenIndices(ps, height)|
    decreases |ps|
  {
    if |ps| > 0 {
      var n := |ps| - 1;
      var init := ps[..n];
      assert ps == init + [ps[n]];
      KeptSnoc(init, ps[n], height);
      KeptCount(init, height);
      FallenIndicesSnoc(init, ps[n], height);
    }
  }

  /** A well-formed ball, once processed, is settled unless it has fallen. */
  lemma ProcessedSettled(q: Particle, p: Particle, height: real, showTrails: bool)
    requires WellFormed(p) && Processed(q, p, showTrails) && !Fallen(q, height)
    ensures Settled(q, height, showTrails) && WellFormed(q)
  {
  }

  /** When every ball of `ps` that has not fallen is settled, every kept ball is. */
  lemma {:induction false} KeptSettled(ps: seq<Particle>, height: real, showTrails: bool)
    requires forall m :: 0 <= m < |ps| && !Fallen(ps[m], height) ==> Settled(ps[m], height, showTrails)
    ensures forall k :: 0 <= k < |Kept(ps, height)| ==> Settled(Kept(ps, height)[k], height, showTrails)
    decreases |ps|
  {
    if |ps| > 0 {
      assert forall m :: 1 <= m < |ps| ==> ps[1..][m - 1] == ps[m];
      KeptSettled(ps[1..], height, showTrails);
    }
  }

  /** After a frame over well-formed balls, every ball that remains is settled. */
  lemma FrameSettled(processed: seq<Particle>, before: seq<Particle>, height: real, showTrails: bool)
    requires |processed| == |before|
    requires forall k :: 0 <= k < |before| ==> WellFormed(before[k])
    requires forall k :: 0 <= k < |processed| ==> Processed(processed[k], before[k], showTrails)
    ensures forall k :: 0 <= k < |Kept(processed, height)| ==> Settled(Kept(processed, height)[k], height, showTrails)
  {
    forall k | 0 <= k < |processed| && !Fallen(processed[k], height)
      ensures Settled(processed[k], height, showTrails)
    {
      ProcessedSettled(processed[k], before[k], height, showTrails);
    }
    KeptSettled(processed, height, showTrails);
  }

  class ParticlePlayground {
    var particles: seq<Particle>
    /** The count shown in the control panel. */
    var particleCount: int
    var showTrails: bool

    /** The shown count is the length of the list, and every ball is well formed. */
    ghost predicate Valid()
      reads this
    {
      && particleCount == |particles|
      && forall i :: 0 <= i < |particles| ==> WellFormed(particles[i])
    }

    /** The initial state: no balls, count 0, trails on. */
    constructor ()
      ensures Valid() && particles == [] && particleCount == 0 && showTrails
    {
      particles := [];
      particleCount := 0;
      showTrails := true;
    }

    /** The canvas effect's opening spawn: 15 balls at random spots in the upper half of the
        canvas, then the count is refreshed. The effect runs on mount and again whenever
        gravity, mouse force, trails or friction change, and the list survives the re-run,
        so each such change adds 15 more balls. */
    method SpawnInitial(width: real, height: real, draws: seq<ParticleDraw>, spots: seq<(real, real)>)
      requires Valid()
      requires |draws| == 15 && |spots| == 15
      requires forall i :: 0 <= i < 15 ==> ValidDraw(draws[i]) && Uniform(spots[i].0) && Uniform(spots[i].1)
      modifies this`particles, this`particleCount
      ensures Valid()
      ensures |particles| == |old(particles)| + 15 && particleCount == old(particleCount) + 15
      ensures particles[..|old(particles)|] == old(particles)
      ensures forall i :: 0 <= i < 15 ==>
        particles[|old(particles)| + i] == CreateParticle(spots[i].0 * width, spots[i].1 * height * 0.5, 0.0, 0.0, draws[i])
    {
      var i := 0;
      while i < 15
        invariant 0 <= i <= 15
        invariant |particles| == |old(particles)| + i
        invariant particles[..|old(particles)|] == old(particles)
        invariant forall j :: 0 <= j < i ==>
          particles[|old(particles)| + j] == CreateParticle(spots[j].0 * width, spots[j].1 * height * 0.5, 0.0, 0.0, draws[j])
        invariant forall j :: 0 <= j < |particles| ==> WellFormed(particles[j])
        invariant particleCount == old(particleCount)
      {
        particles := particles + [CreateParticle(spots[i].0 * width, spots[i].1 * height * 0.5, 0.0, 0.0, draws[i])];
        i := i + 1;
      }
      particleCount := |particles|;
    }

    /** `spawnParticles(x, y, count)`: `count` new balls at `(x, y)` (5 by default, 8 per
        press or touch), then the count is refreshed. */
    method Spawn(x: real, y: real, count: nat, draws: seq<ParticleDraw>)
      requires Valid()
      requires |draws| == count && forall i :: 0 <= i < count ==> ValidDraw(draws[i])
      modifies this`particles, this`particleCount
      ensures Valid()
      ensures |particles| == |old(particles)| + count
      ensures particles[..|old(particles)|] == old(particles)
      ensures forall i :: 0 <= i < count ==> particles[|old(particles)| + i] == CreateParticle(x, y, 0.0, 0.0, draws[i])
      ensures particleCount == old(particleCount) + count
    {
      var i := 0;
      while i < count
        invariant 0 <= i <= count
        invariant |particles| == |old(particles)| + i
        invariant particles[..|old(particles)|] == old(particles)
        invariant forall j :: 0 <= j < i ==> particles[|old(particles)| + j] == CreateParticle(x, y, 0.0, 0.0, draws[j])
        invariant forall j :: 0 <= j < |particles| ==> WellFormed(particles[j])
        invariant particleCount == old(particleCount)
      {
        particles := particles + [CreateParticle(x, y, 0.0, 0.0, draws[i])];
        i := i + 1;
      }
      particleCount := |particles|;
    }

    /** `clearParticles`. */
    method Clear()
      requires Valid()
      modifies this`particles, this`particleCount
      ensures Valid() && particles == [] && particleCount == 0
    {
      particles := [];
      particleCount := 0;
    }

    /** The trails button; the effect re-run it causes is `SpawnInitial`. */
    method ToggleTrails()
      requires Valid()
      modifies this`showTrails
      ensures Valid() && showTrails == !old(showTrails)
    {
      showTrails := !showTrails;
    }

    /** The collision pass for the ball at `i`, held in `p`: each ball of lower index, from
        `i - 1` down to 0, and `p` move as `collide` says. Only motion changes, for `p` and
        for every ball below `i`, and nothing from index `i` on is touched. */
    method ResolveCollisions(i: int, p: Particle, collide: (Particle, Particle) -> (Motion, Motion)) returns (q: Particle)
      requires Valid() && 0 <= i < |particles|
      modifies this`particles
      ensures Valid()
      ensures |particles| == |old(particles)| && particles[i..] == old(particles)[i..]
      ensures forall k :: 0 <= k < i ==> SameBody(particles[k], old(particles)[k])
      ensures SameBody(q, p)
    {
      q := p;
      var j := i - 1;
      while j >= 0
        invariant -1 <= j < i
        invariant |particles| == |old(particles)| && particles[i..] == old(particles)[i..]
        invariant particleCount == |particles|
        invariant forall k :: 0 <= k < |particles| ==> WellFormed(particles[k])
        invariant forall k :: 0 <= k < i ==> SameBody(particles[k], old(particles)[k])
        invariant SameBody(q, p)
      {
        var (m, m2) := collide(q, particles[j]);
        q := WithMotion(q, m);
        particles := particles[j := WithMotion(particles[j], m2)];
        j := j - 1;
      }
    }

    /** The frame loop's body for the ball at `i`: move it, bounce it off the walls,
        resolve its collisions with the balls of lower index, update its trail, write it
        back and splice it out when it has fallen, refreshing the count. `p` is the ball as
        this visit leaves it. Nothing after `i` is touched, and below `i` only motion
        changes. */
    method UpdateBall(i: int, width: real, height: real, forces: Particle -> Motion,
                      collide: (Particle, Particle) -> (Motion, Motion), jitter: real)
      returns (ghost p: Particle)
      requires Valid() && 0 <= i < |particles| && Uniform(jitter)
      modifies this`particles, this`particleCount
      ensures Valid()
      ensures Processed(p, old(particles)[i], showTrails)
      ensures !Fallen(p, height) ==> Settled(p, height, showTrails)
      ensures |particles| >= i
      ensures particles[i..] == (if Fallen(p, height) then [] else [p]) + old(particles)[i + 1..]
      ensures forall k :: 0 <= k < i ==> SameBody(particles[k], old(particles)[k])
    {
      var q := Advance(particles[i], width, height, forces, jitter);
      q := ResolveCollisions(i, q, collide);
      q := q.(trail := TrailStep(q.trail, Pos(q.x, q.y), showTrails));
      particles := particles[i := q];
      if Fallen(q, height) {
        particles := particles[..i] + particles[i + 1..];
        particleCount := |particles|;
      }
      p := q;
    }

    /** One animation frame: a backward loop that updates each ball in turn (see
        `UpdateBall`). Going from the end keeps the indices still to be visited valid after
        a splice, and a ball is never touched again once visited. `processed[k]` is ball
        `k` as its visit left it: the list that remains is exactly the processed balls that
        have not fallen, in order, and each of them is settled. */
    method Frame(width: real, height: real, forces: Particle -> Motion,
                 collide: (Particle, Particle) -> (Motion, Motion), jitters: seq<real>)
      returns (ghost processed: seq<Particle>)
      requires Valid()
      requires |jitters| == |particles| && forall i :: 0 <= i < |jitters| ==> Uniform(jitters[i])
      modifies this`particles, this`particleCount
      ensures Valid()
      ensures |processed| == |old(particles)|
      ensures forall k :: 0 <= k < |processed| ==> Processed(processed[k], old(particles)[k], showTrails)
      ensures particles == Kept(processed, height)
      ensures |particles| == |old(particles)| - |FallenIndices(processed, height)|
      ensures forall k :: 0 <= k < |particles| ==> Settled(particles[k], height, showTrails)
    {
      processed := particles;
      var i := |particles| - 1;
      while i >= 0
        invariant Valid()
        invariant -1 <= i < |processed| == |old(particles)| == |jitters|
        invariant |particles| >= i + 1 && particles[i + 1..] == Kept(processed[i + 1..], height)
        invariant forall k :: 0 <= k <= i ==> SameBody(particles[k], old(particles)[k])
        invariant forall k :: i < k < |processed| ==> Processed(processed[k], old(particles)[k], showTrails)
      {
        ghost var p := UpdateBall(i, width, height, forces, collide, jitters[i]);
        processed := processed[i := p];
        assert processed[i..][1..] == processed[i + 1..];
        i := i - 1;
      }
      assert processed[0..] == processed;
      FrameSettled(processed, old(particles), height, showTrails);
      KeptCount(processed, height);
    }
  }
}
