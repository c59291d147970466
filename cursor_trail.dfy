/** The cursor trail overlay: a timer samples the global cursor position,
    records it when it has moved far enough from the last recorded one, and
    keeps the most recent few positions (in widget coordinates) to paint as
    fading copies of the cursor. Reading the cursor and mapping it into the
    widget are parameters of the tick; the repaint request is a counter. */
module CursorTrail {
  import opened Py

  datatype Point = Point(x: int, y: int)

  const TrailLength: nat := 8
  const UpdateMs: nat := 20
  const MinDistanceSq: int := 36

  function DistanceSq(a: Point, b: Point): (d: int)
    ensures d >= 0
    ensures d == 0 <==> a == b
  {
    (a.x - b.x) * (a.x - b.x) + (a.y - b.y) * (a.y - b.y)
  }

  /** The last `n` entries of `h`, all of them when there are fewer. */
  function Recent(h: seq<Point>, n: nat): (r: seq<Point>)
    ensures |r| == if |h| < n then |h| else n
    ensures forall i :: 0 <= i < |r| ==> r[i] == h[|h| - |r| + i]
  {
    if |h| <= n then h else h[|h| - n..]
  }

  /** Appending and then dropping the oldest entry when the buffer
      overflows keeps exactly the most recent `n` entries. */
  lemma RecentSnoc(h: seq<Point>, p: Point, n: nat)
    requires n > 0
    ensures var b := Recent(h, n) + [p];
      Recent(h + [p], n) == if |b| > n then b[1..] else b
  {
    var b := Recent(h, n) + [p];
    var r := Recent(h + [p], n);
    var e := if |b| > n then b[1..] else b;
    assert |r| == |e|;
    forall i | 0 <= i < |r|
      ensures r[i] == e[i]
    {
      if i < |r| - 1 {
        assert r[i] == (h + [p])[|h| + 1 - |r| + i];
      }
    }
  }

  /** One faded copy of the cursor: where, how opaque and how large. */
  datatype Sprite = Sprite(at: Point, opacity: real, scale: real)

  /** `(i + 1) / (n + 1)`: how far along the trail the `i`-th of `n` drawn
      points is. */
  function Frac(i: nat, n: nat): (f: real)
    requires i < n
    ensures 0.0 < f < 1.0
  {
    (i + 1) as real / (n + 1) as real
  }

  lemma FracIncreasing(i: nat, j: nat, n: nat)
    requires i < j < n
    ensures Frac(i, n) < Frac(j, n)
  {
    var d := (n + 1) as real;
    assert Frac(j, n) - Frac(i, n) == (j - i) as real / d;
  }

  class CursorTrailOverlay {
    var points: seq<Point>
    var lastGlobal: Option<Point>
    /** Whether the timer runs and the overlay is shown. */
    var running: bool
    /** Repaints requested with `update()`. */
    var repaints: nat
    /** Every position recorded since the trail was last cleared. */
    ghost var recorded: seq<Point>

    /** The buffer holds the most recent recorded positions, oldest first. */
    ghost predicate Valid()
      reads this
    {
      points == Recent(recorded, TrailLength)
    }

    constructor()
      ensures Valid() && points == [] && lastGlobal == None && !running && repaints == 0
    {
      points := [];
      lastGlobal := None;
      running := false;
      repaints := 0;
      recorded := [];
    }

    /** `start`: the timer runs and the overlay shows; the trail is kept. */
    method Start()
      modifies this
      ensures running
      ensures points == old(points) && lastGlobal == old(lastGlobal) && repaints == old(repaints)
      ensures recorded == old(recorded)
    {
      running := true;
    }

    /** `stop`: the timer stops, the overlay hides and the trail is emptied;
        the last recorded position is kept, so the next tick is measured
        against it. */
    method Stop()
      modifies this
      ensures Valid() && !running && points == []
      ensures lastGlobal == old(lastGlobal) && repaints == old(repaints)
    {
      running := false;
      points := [];
      recorded := [];
    }

    /** `_tick`: a position closer than 6 pixels to the last recorded one
        changes nothing; any other (and the very first) is recorded, the
        oldest point is dropped once there are more than eight, and a
        repaint is requested. */
    method Tick(gpos: Point, local: Point)
      requires Valid()
      modifies this
      ensures Valid() && |points| <= TrailLength && running == old(running)
      ensures old(lastGlobal).Some? && DistanceSq(gpos, old(lastGlobal).value) < MinDistanceSq ==>
        points == old(points) && lastGlobal == old(lastGlobal) && repaints == old(repaints)
      ensures old(lastGlobal).None? || DistanceSq(gpos, old(lastGlobal).value) >= MinDistanceSq ==>
        && lastGlobal == Some(gpos) && recorded == old(recorded) + [local]
        && points[|points| - 1] == local && repaints == old(repaints) + 1
    {
      if lastGlobal.Some? {
        var dx := gpos.x - lastGlobal.value.x;
        var dy := gpos.y - lastGlobal.value.y;
        assert dx * dx + dy * dy == DistanceSq(gpos, lastGlobal.value);
        if dx * dx + dy * dy < MinDistanceSq {
          return;
        }
      }
      lastGlobal := Some(gpos);
      RecentSnoc(recorded, local, TrailLength);
      recorded := recorded + [local];
      points := points + [local];
      if |points| > TrailLength {
        points := points[1..];
      }
      repaints := repaints + 1;
    }

    /** `paintEvent`: with fewer than two points nothing is drawn; otherwise
        every point but the newest (where the real cursor is) is drawn,
        oldest first, with opacity `0.35 * frac` and scale `0.4 + 0.6 *
        frac`, `frac` growing along the trail. */
    function Paint(): (sprites: seq<Sprite>)
      reads this
      ensures |points| < 2 ==> sprites == []
      ensures |points| >= 2 ==> |sprites| == |points| - 1
      ensures forall i :: 0 <= i < |sprites| ==> sprites[i].at == points[i]
      ensures forall i :: 0 <= i < |sprites| ==>
        0.0 < sprites[i].opacity < 0.35 && 0.4 < sprites[i].scale < 1.0
    {
      if |points| < 2 then []
      else
        var ps, n := points, |points| - 1;
        seq(n, i requires 0 <= i < n => Sprite(ps[i], Frac(i, n) * 0.35, 0.4 + Frac(i, n) * 0.6))
    }
  }

  /** Newer points are drawn more opaque and larger than older ones. */
  lemma NewerIsStronger(t: CursorTrailOverlay, i: nat, j: nat)
    requires i < j < |t.Paint()|
    ensures t.Paint()[i].opacity < t.Paint()[j].opacity
    ensures t.Paint()[i].scale < t.Paint()[j].scale
  {
    FracIncreasing(i, j, |t.points| - 1);
  }
}
