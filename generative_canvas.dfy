/** `GenerativeCanvas`: a drawing canvas. Dragging the cursor records stroke points
    (and, in "shapes" mode, occasionally a geometric shape); every animation frame fades the
    shapes, ages the points and drops the points that are too old.

    Cursor events, animation frames and the clear button are methods of a class whose
    fields are the component's refs; random draws are parameters. */
module GenerativeCanvas {
  import opened Options

  datatype Pos = Pos(x: real, y: real)

  /** A stroke point: where it was recorded and how many frames old it is. */
  datatype Point = Point(x: real, y: real, age: nat)

  datatype ShapeKind = Triangle | Square | Hexagon | Circle

  /** A fading shape (its colour is not modelled). */
  datatype Shape = Shape(x: real, y: real, rotation: real, scale: real, kind: ShapeKind,
                         alpha: real, rotationSpeed: real)

  datatype ShapeMode = Lines | Shapes | Particles

  /** The random part of a new shape: rotation, scale in [0.5, 2), kind, and rotation speed
      in [-0.025, 0.025). */
  datatype ShapeDraw = ShapeDraw(rotation: real, scale: real, kind: ShapeKind, rotationSpeed: real)

  predicate ValidShapeDraw(d: ShapeDraw)
  {
    0.5 <= d.scale < 2.0 && -0.025 <= d.rotationSpeed < 0.025
  }

  /** A shape spawned at the cursor, fully visible at alpha 0.8. */
  function NewShape(at: Pos, d: ShapeDraw): Shape
  {
    Shape(at.x, at.y, d.rotation, d.scale, d.kind, 0.8, d.rotationSpeed)
  }

  // ---------------------------------------------------------------- strokes

  /** How many points a move appends: `max(1, floor(dist / 3))`. */
  function Steps(dist: real): (n: nat)
    requires dist >= 0.0
    ensures n >= 1
    ensures dist < 6.0 ==> n == 1
    ensures dist >= 3.0 ==> 3.0 * n as real <= dist < 3.0 * n as real + 3.0
  {
    var f := (dist / 3.0).Floor;
    if f >= 1 then f else 1
  }

  /** The point at parameter `t` of the segment from `from` to `to`. */
  function Lerp(from: Pos, to: Pos, t: real): Pos
  {
    Pos(from.x + (to.x - from.x) * t, from.y + (to.y - from.y) * t)
  }

  /** Point `i` of a stroke of `steps` points from `from` toward `to`, at `t == i / steps`. */
  function StrokePoint(from: Pos, to: Pos, steps: nat, i: nat): Point
    requires steps >= 1
  {
    var p := Lerp(from, to, i as real / steps as real);
    Point(p.x, p.y, 0)
  }

  /** `i / n` lies in [0, 1) for `i < n`. */
  lemma FractionBelowOne(i: nat, n: nat)
    requires i < n
    ensures 0.0 <= i as real / n as real < 1.0
  {
    var t := i as real / n as real;
    assert t * n as real == i as real;
  }

  /** The points of a stroke lie on the segment from `from` toward `to`, at parameters
      `0 <= t < 1`, and are new (age 0). */
  lemma StrokePointOnSegment(from: Pos, to: Pos, steps: nat, i: nat)
    requires steps >= 1 && i < steps
    ensures StrokePoint(from, to, steps, i).age == 0
    ensures exists t: real :: (0.0 <= t < 1.0 &&
      Lerp(from, to, t) == Pos(StrokePoint(from, to, steps, i).x, StrokePoint(from, to, steps, i).y))
  {
    FractionBelowOne(i, steps);
    var t := i as real / steps as real;
    assert Lerp(from, to, t) == Pos(StrokePoint(from, to, steps, i).x, StrokePoint(from, to, steps, i).y);
  }

  /** The cursor's new position is never itself appended, unless the cursor did not move. */
  lemma StrokeExcludesEndpoint(from: Pos, to: Pos, steps: nat, i: nat)
    requires steps >= 1 && i < steps
    requires StrokePoint(from, to, steps, i) == Point(to.x, to.y, 0)
    ensures from == to
  {
    FractionBelowOne(i, steps);
    var t := i as real / steps as real;
    assert (to.x - from.x) * (1.0 - t) == 0.0;
    assert (to.y - from.y) * (1.0 - t) == 0.0;
  }

  // ---------------------------------------------------------------- drawing

  /** The draw loop visits `p` from 0 to `|points| - 2` and skips points older than
      `trailLength`: so the last point is never drawn on its own. */
  predicate Drawn(points: seq<Point>, p: int, trailLength: nat)
  {
    0 <= p < |points| - 1 && points[p].age <= trailLength
  }

  /** The stroke opacity of a point, `1 - age / trailLength`. */
  function Alpha(age: nat, trailLength: nat): (a: real)
    requires trailLength > 0
    ensures age <= trailLength ==> 0.0 <= a <= 1.0
    ensures age == 0 ==> a == 1.0
    ensures age == trailLength ==> a == 0.0
  {
    1.0 - age as real / trailLength as real
  }

  /** The line width of a point, `brush * (1 - age / trailLength * 0.5)`: between half the
      brush and the whole brush for every drawn point. */
  function LineWidth(brush: nat, age: nat, trailLength: nat): (w: real)
    requires trailLength > 0
    ensures age <= trailLength ==> brush as real / 2.0 <= w <= brush as real
  {
    brush as real * (1.0 - age as real / trailLength as real * 0.5)
  }

  /** A point the draw loop draws has a next point to stroke to, an opacity in [0, 1] and
      a line width between half the brush and the whole brush. */
  lemma DrawnStyle(points: seq<Point>, p: int, trailLength: nat, brush: nat)
    requires trailLength > 0 && Drawn(points, p, trailLength)
    ensures p + 1 < |points|
    ensures 0.0 <= Alpha(points[p].age, trailLength) <= 1.0
    ensures brush as real / 2.0 <= LineWidth(brush, points[p].age, trailLength) <= brush as real
  {
  }

  // ---------------------------------------------------------------- per-frame maintenance

  /** One frame of a shape: it turns by its speed and loses 0.002 alpha. */
  function Fade(s: Shape): Shape
  {
    s.(rotation := s.rotation + s.rotationSpeed, alpha := s.alpha - 0.002)
  }

  /** The shape list after `forEach` with `splice(index, 1)` of every faded-out shape.
      Removing the shape at `index` shifts the next one into `index`, and `forEach` moves
      on to `index + 1`: that next shape is skipped for this frame. */
  function ForEachFade(s: seq<Shape>): (r: seq<Shape>)
    ensures |r| <= |s|
    decreases |s|
  {
    if |s| == 0 then []
    else if Fade(s[0]).alpha <= 0.0 then
      if |s| == 1 then [] else [s[1]] + ForEachFade(s[2..])
    else [Fade(s[0])] + ForEachFade(s[1..])
  }

  /** When no shape fades out this frame, every shape is faded once, in order. */
  lemma {:induction false} ForEachFadeNoRemoval(s: seq<Shape>)
    requires forall i :: 0 <= i < |s| ==> Fade(s[i]).alpha > 0.0
    ensures ForEachFade(s) == seq(|s|, i requires 0 <= i < |s| => Fade(s[i]))
  {
    if |s| > 0 {
      ForEachFadeNoRemoval(s[1..]);
    }
  }

  /** The skip: if shapes before `k` survive and shape `k` fades out, the survivors before
      it are faded, and shape `k + 1` takes its place unchanged, not faded this frame. */
  lemma {:induction false} ForEachFadeSkipsNext(s: seq<Shape>, k: nat)
    requires k + 1 < |s|
    requires forall i :: 0 <= i < k ==> Fade(s[i]).alpha > 0.0
    requires Fade(s[k]).alpha <= 0.0
    ensures |ForEachFade(s)| > k
    ensures forall i :: 0 <= i < k ==> ForEachFade(s)[i] == Fade(s[i])
    ensures ForEachFade(s)[k] == s[k + 1]
  {
    if k > 0 {
      ForEachFadeSkipsNext(s[1..], k - 1);
    }
  }

  /** Shapes are alive (alpha > 0) before a frame, so they still are after it. */
  lemma {:induction false} ForEachFadeKeepsAlive(s: seq<Shape>)
    requires forall i :: 0 <= i < |s| ==> s[i].alpha > 0.0
    ensures forall i :: 0 <= i < |ForEachFade(s)| ==> ForEachFade(s)[i].alpha > 0.0
    decreases |s|
  {
    if |s| >= 2 {
      ForEachFadeKeepsAlive(s[2..]);
      ForEachFadeKeepsAlive(s[1..]);
    } else if |s| == 1 {
      ForEachFadeKeepsAlive(s[1..]);
    }
  }

  /** One step of the `forEach`: fading the shape at `index` in place, and splicing it out
      when it has faded out, keeps "the prefix before the cursor, then `ForEachFade` of the
      rest" equal, with the cursor one further on. */
  lemma ForEachFadeStep(before: seq<Shape>, index: nat)
    requires index < |before|
    ensures var upd := before[index := Fade(before[index])];
      var spliced := upd[..index] + upd[index + 1..];
      && (Fade(before[index]).alpha > 0.0 ==>
            upd[..index + 1] + ForEachFade(upd[index + 1..]) == before[..index] + ForEachFade(before[index..]))
      && (Fade(before[index]).alpha <= 0.0 && index + 1 <= |spliced| ==>
            spliced[..index + 1] + ForEachFade(spliced[index + 1..]) == before[..index] + ForEachFade(before[index..]))
      && (Fade(before[index]).alpha <= 0.0 && index + 1 > |spliced| ==>
            spliced == before[..index] + ForEachFade(before[index..]))
  {
    var shape := Fade(before[index]);
    var upd := before[index := shape];
    assert before[index..][1..] == before[index + 1..];
    if shape.alpha <= 0.0 {
      var spliced := upd[..index] + upd[index + 1..];
      if index + 1 < |before| {
        assert before[index..][2..] == before[index + 2..];
        assert spliced[..index + 1] == before[..index] + [before[index + 1]];
        assert spliced[index + 1..] == before[index + 2..];
      } else {
        assert spliced == before[..index];
      }
    } else {
      assert upd[..index + 1] == before[..index] + [shape];
      assert upd[index + 1..] == before[index + 1..];
    }
  }

  /** `b` is `a` with some elements deleted, order kept. */
  predicate Subsequence<T(==)>(a: seq<T>, b: seq<T>)
    decreases |b|
  {
    || |a| == 0
    || (&& |b| > 0
        && ((a[0] == b[0] && Subsequence(a[1..], b[1..])) || Subsequence(a, b[1..])))
  }

  /** A point one frame older. */
  function Older(p: Point): Point
  {
    p.(age := p.age + 1)
  }

  /** Every point one frame older, in order. */
  function AgedAll(ps: seq<Point>): (r: seq<Point>)
  {
    seq(|ps|, i requires 0 <= i < |ps| => Older(ps[i]))
  }

  /** The point list after the backward loop: every point one frame older, and those older
      than `limit` removed. */
  function AgePrune(ps: seq<Point>, limit: nat): (r: seq<Point>)
    decreases |ps|
  {
    if |ps| == 0 then []
    else (if Older(ps[0]).age > limit then [] else [Older(ps[0])]) + AgePrune(ps[1..], limit)
  }

  /** Exactly the points whose new age exceeds `limit` are removed; the others survive,
      one frame older, in their original order. */
  lemma {:induction false} AgePruneSpec(ps: seq<Point>, limit: nat)
    ensures forall q :: q in AgePrune(ps, limit) ==> q.age <= limit
    ensures forall i :: 0 <= i < |ps| && ps[i].age + 1 <= limit ==> Older(ps[i]) in AgePrune(ps, limit)
    ensures Subsequence(AgePrune(ps, limit), AgedAll(ps))
    decreases |ps|
  {
    if |ps| > 0 {
      AgePruneSpec(ps[1..], limit);
      var aged := AgedAll(ps);
      assert aged[1..] == AgedAll(ps[1..]);
      var r := AgePrune(ps, limit);
      assert Subsequence(AgePrune(ps[1..], limit), aged[1..]);
      if Older(ps[0]).age <= limit {
        assert r[0] == aged[0] && r[1..] == AgePrune(ps[1..], limit);
      } else {
        assert r == AgePrune(ps[1..], limit);
      }
      forall i | 0 <= i < |ps| && ps[i].age + 1 <= limit
        ensures Older(ps[i]) in AgePrune(ps, limit)
      {
        if i > 0 {
          assert ps[1..][i - 1] == ps[i];
        }
      }
    }
  }

  /** Pruning a longer list adds at most the last point, aged. */
  lemma {:induction false} AgePruneSnoc(ps: seq<Point>, p: Point, limit: nat)
    ensures AgePrune(ps + [p], limit) == AgePrune(ps, limit) + (if Older(p).age > limit then [] else [Older(p)])
    decreases |ps|
  {
    if |ps| == 0 {
      assert ps + [p] == [p];
    } else {
      var longer := ps + [p];
      assert longer[0] == ps[0] && longer[1..] == ps[1..] + [p];
      AgePruneSnoc(ps[1..], p, limit);
      var head := if Older(ps[0]).age > limit then [] else [Older(ps[0])];
      var tail := if Older(p).age > limit then [] else [Older(p)];
      assert AgePrune(longer, limit) == head + (AgePrune(ps[1..], limit) + tail);
      assert AgePrune(ps, limit) == head + AgePrune(ps[1..], limit);
    }
  }

  /** The indices of the points of `ps` young enough to survive ageing. */
  function YoungIndices(ps: seq<Point>, limit: nat): set<int>
  {
    set i | 0 <= i < |ps| && ps[i].age + 1 <= limit
  }

  /** Adding a point at the end adds at most its own index. */
  lemma YoungIndicesSnoc(ps: seq<Point>, p: Point, limit: nat)
    ensures |ps| !in YoungIndices(ps, limit)
    ensures YoungIndices(ps + [p], limit) ==
      YoungIndices(ps, limit) + (if p.age + 1 <= limit then {|ps|} else {})
  {
    assert forall i :: 0 <= i < |ps| ==> (ps + [p])[i] == ps[i];
  }

  /** Exactly one point survives per young-enough index, so no duplicate is lost. */
  lemma {:induction false} AgePruneCount(ps: seq<Point>, limit: nat)
    ensures |AgePrune(ps, limit)| == |YoungIndices(ps, limit)|
    decreases |ps|
  {
    if |ps| > 0 {
      var n := |ps| - 1;
      var init := ps[..n];
      assert ps == init + [ps[n]];
      AgePruneSnoc(init, ps[n], limit);
      AgePruneCount(init, limit);
      YoungIndicesSnoc(init, ps[n], limit);
    }
  }

  /** One step of the backward ageing loop: with the points after `i` already pruned,
      ageing the point at `i` and splicing it out when too old prunes from `i` on. */
  lemma AgePruneStep(before: seq<Point>, s: seq<Point>, i: nat, limit: nat)
    requires i < |before| && s == before[..i + 1] + AgePrune(before[i + 1..], limit)
    ensures s[i] == before[i]
    ensures Older(s[i]).age > limit ==>
      s[i := Older(s[i])][..i] + s[i := Older(s[i])][i + 1..] == before[..i] + AgePrune(before[i..], limit)
    ensures Older(s[i]).age <= limit ==>
      s[i := Older(s[i])] == before[..i] + AgePrune(before[i..], limit)
  {
    assert before[i..][1..] == before[i + 1..];
    assert before[..i + 1] == before[..i] + [before[i]];
  }

  class GenerativeCanvas {
    var points: seq<Point>
    var shapes: seq<Shape>
    /** `mouseRef`: the cursor position and whether a stroke is being drawn. */
    var mouse: Pos
    var isDrawing: bool
    /** `lastMouseRef`: where the current stroke last got to. */
    var lastMouse: Pos
    var trailLength: nat
    var shapeMode: ShapeMode

    /** The trail slider's range, and every shape still visible. */
    ghost predicate Valid()
      reads this
    {
      && 10 <= trailLength <= 100
      && forall i :: 0 <= i < |shapes| ==> shapes[i].alpha > 0.0
    }

    constructor ()
      ensures Valid()
      ensures points == [] && shapes == [] && !isDrawing
      ensures mouse == Pos(0.0, 0.0) && lastMouse == Pos(0.0, 0.0)
      ensures trailLength == 50 && shapeMode == Lines
    {
      points, shapes := [], [];
      mouse, isDrawing, lastMouse := Pos(0.0, 0.0), false, Pos(0.0, 0.0);
      trailLength, shapeMode := 50, Lines;
    }

    /** The trail slider (10 to 100). */
    method SetTrailLength(v: nat)
      requires Valid() && 10 <= v <= 100
      modifies this`trailLength
      ensures Valid() && trailLength == v
    {
      trailLength := v;
    }

    /** The mode buttons. */
    method SetShapeMode(m: ShapeMode)
      requires Valid()
      modifies this`shapeMode
      ensures Valid() && shapeMode == m
    {
      shapeMode := m;
    }

    /** `handleStart`: start a stroke anchored at the cursor. */
    method Start(pos: Pos)
      requires Valid()
      modifies this`mouse, this`isDrawing, this`lastMouse
      ensures Valid()
      ensures mouse == pos && isDrawing && lastMouse == pos
    {
      mouse := pos;
      isDrawing := true;
      lastMouse := pos;
    }

    /** `handleEnd` (mouse up, mouse leave, touch end). */
    method End()
      requires Valid()
      modifies this`isDrawing
      ensures Valid() && !isDrawing
    {
      isDrawing := false;
    }

    /** `handleMove`. While drawing, append `Steps(dist)` new points from the last position
        toward `pos`, maybe spawn a shape (`spawn` is present when the 15% draw succeeds),
        and move the stroke's anchor; in every case track the cursor. `dist` is the
        Euclidean distance the cursor moved. */
    method Move(pos: Pos, dist: real, spawn: Option<ShapeDraw>)
      requires Valid()
      requires dist >= 0.0
      requires dist * dist == (pos.x - lastMouse.x) * (pos.x - lastMouse.x)
                            + (pos.y - lastMouse.y) * (pos.y - lastMouse.y)
      requires spawn.Some? ==> ValidShapeDraw(spawn.value)
      modifies this`points, this`shapes, this`mouse, this`lastMouse
      ensures Valid()
      ensures mouse == pos
      ensures !isDrawing ==> points == old(points) && shapes == old(shapes) && lastMouse == old(lastMouse)
      ensures isDrawing ==>
        && points == old(points) + seq(Steps(dist), i requires 0 <= i < Steps(dist) =>
                                          StrokePoint(old(lastMouse), pos, Steps(dist), i))
        && shapes == old(shapes) + (if shapeMode == Shapes && spawn.Some? then [NewShape(pos, spawn.value)] else [])
        && lastMouse == pos
    {
      if isDrawing {
        var from := lastMouse;
        var steps := Steps(dist);
        var i := 0;
        while i < steps
          invariant 0 <= i <= steps
          invariant points == old(points) + seq(i, j requires 0 <= j < i => StrokePoint(from, pos, steps, j))
          invariant shapes == old(shapes) && lastMouse == old(lastMouse)
        {
          points := points + [StrokePoint(from, pos, steps, i)];
          i := i + 1;
        }
        if shapeMode == Shapes && spawn.Some? {
          shapes := shapes + [NewShape(pos, spawn.value)];
        }
        lastMouse := pos;
      }
      mouse := pos;
    }

    /** `clearCanvas`: both lists emptied. */
    method Clear()
      requires Valid()
      modifies this`points, this`shapes
      ensures Valid() && points == [] && shapes == []
    {
      points := [];
      shapes := [];
    }

    /** The shape pass of a frame: `forEach` over the shapes, splicing out each one that
        has faded out. */
    method FadeShapes()
      requires Valid()
      modifies this`shapes
      ensures Valid()
      ensures shapes == ForEachFade(old(shapes))
    {
      ghost var target := ForEachFade(shapes);
      ForEachFadeKeepsAlive(shapes);
      var len0 := |shapes|;
      var index := 0;
      while index < len0
        invariant |shapes| <= len0
        invariant target == if index <= |shapes| then shapes[..index] + ForEachFade(shapes[index..]) else shapes
      {
        if index < |shapes| {
          ForEachFadeStep(shapes, index);
          var shape := Fade(shapes[index]);
          shapes := shapes[index := shape];
          if shape.alpha <= 0.0 {
            shapes := shapes[..index] + shapes[index + 1..];
          }
        }
        index := index + 1;
      }
    }

    /** The point pass of a frame: a backward loop that ages each point and splices out
        those older than twice the trail length. */
    method AgePoints()
      requires Valid()
      modifies this`points
      ensures Valid()
      ensures points == AgePrune(old(points), 2 * trailLength)
    {
      var i := |points| - 1;
      while i >= 0
        invariant -1 <= i < |points|
        invariant points == old(points)[..i + 1] + AgePrune(old(points)[i + 1..], 2 * trailLength)
      {
        AgePruneStep(old(points), points, i, 2 * trailLength);
        var p := Older(points[i]);
        points := points[i := p];
        if p.age > trailLength * 2 {
          points := points[..i] + points[i + 1..];
        }
        i := i - 1;
      }
    }

    /** One animation frame: the shape pass, then the point pass. */
    method AnimationFrame()
      requires Valid()
      modifies this`shapes, this`points
      ensures Valid()
      ensures shapes == ForEachFade(old(shapes))
      ensures points == AgePrune(old(points), 2 * trailLength)
    {
      FadeShapes();
      AgePoints();
    }
  }
}
