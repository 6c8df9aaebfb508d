/** The four candidate-position searches of the layout engine.

    Each search walks a bounded sequence of candidate boxes and returns the first one that
    is admissible (inside its bounds, when it checks bounds, and free of collisions), or None.
    Every method below is proved equal to `Scan` over an explicit candidate sequence, so the
    properties of a search follow from the properties of `Scan` and of its candidates. */
module Placement {
  import opened Wrappers
  import opened Geometry
  import opened RealArith

  /** What the searches take from the platform: the trigonometric functions, the stream of
      `Math.random()` draws (draw i is the i-th call), and the sort of the grid with the random
      comparator `() => Math.random() - 0.5`. The sort's order and its number of comparator calls
      depend on the engine's sort algorithm, so both are functions of the list and of the draw
      the comparator starts at. */
  datatype Env = Env(cos: real -> real, sin: real -> real, random: nat -> real,
                     shuffle: (seq<Position>, nat) -> seq<Position>,
                     sortDraws: (seq<Position>, nat) -> nat)

  /** `Math.random()` returns values in [0, 1). */
  ghost predicate DrawsInUnitInterval(env: Env)
  {
    forall i: nat :: 0.0 <= env.random(i) < 1.0
  }

  /** Sorting with a random comparator reorders the list without adding or losing entries. */
  ghost predicate ShuffleIsPermutation(env: Env)
  {
    forall s, d :: multiset(env.shuffle(s, d)) == multiset(s)
  }

  /** A sort compares every entry at least once: a list of n >= 2 entries costs at least
      n - 1 calls of the comparator, each of which draws once. */
  ghost predicate SortComparesAll(env: Env)
  {
    forall s, d :: |s| >= 2 ==> env.sortDraws(s, d) >= |s| - 1
  }

  /** Increment of angle and radius in both spirals and of the angle in the polar grid. */
  const SpiralStep: real := 0.1
  /** Radius increment of the polar grid. */
  const GridSize: real := 10.0
  /** `Math.PI` as a double. */
  const Pi: real := 3.141592653589793
  /** Archimedean spiral r = A + B * angle. */
  const ArchimedeanA: real := 0.0
  const ArchimedeanB: real := 15.0
  /** Step budget of the archimedean spiral. */
  const MaxSpiralAttempts: nat := 2000
  /** Draw budget of the loose search. */
  const LooseAttempts: nat := 100

  /** Value of a loop variable that starts at 0 after k increments of `step`
      (the accumulation is taken as exact). */
  function Offset(k: nat, step: real): real
  {
    k as real * step
  }

  /** Number of iterations of `for (v = 0; v < limit; v += step)`. */
  function StepCount(limit: real, step: real): (n: nat)
    requires step > 0.0
    ensures forall k: nat :: k < n <==> Offset(k, step) < limit
  {
    if limit <= 0.0 then
      assert forall k: nat :: Offset(k, step) >= 0.0 by {
        forall k: nat ensures Offset(k, step) >= 0.0 { ScaleLess(k as real, 0.0, step); }
      }
      0
    else
      var q := limit / step;
      var f := q.Floor;
      var n: nat := if f as real == q then f else f + 1;
      assert forall k: nat :: k < n <==> Offset(k, step) < limit by {
        forall k: nat ensures k < n <==> Offset(k, step) < limit {
          assert q * step == limit;
          ScaleLess(k as real, q, step);
          assert f as real <= q < f as real + 1.0;
          assert k < n <==> (k as real) < q;
        }
      }
      n
  }

  /** Whether a search compares candidates against a container. */
  datatype Bounds = Unbounded | Within(maxX: real, maxY: real)

  /** The box lies in [0, maxX] x [0, maxY]. */
  predicate Inside(p: Position, maxX: real, maxY: real)
  {
    0.0 <= p.x && p.x + p.width <= maxX && 0.0 <= p.y && p.y + p.height <= maxY
  }

  /** A candidate a search accepts. */
  predicate Admissible(p: Position, placed: seq<PlacedWord>, bounds: Bounds)
  {
    (bounds.Within? ==> Inside(p, bounds.maxX, bounds.maxY)) && !CheckCollision(p, placed)
  }

  /** Index of the first admissible candidate, |cands| when there is none. */
  function FirstAdmissible(cands: seq<Position>, placed: seq<PlacedWord>, bounds: Bounds): (k: nat)
    ensures k <= |cands|
    ensures forall j :: 0 <= j < k ==> !Admissible(cands[j], placed, bounds)
    ensures k < |cands| ==> Admissible(cands[k], placed, bounds)
  {
    if cands == [] then 0
    else if Admissible(cands[0], placed, bounds) then 0
    else 1 + FirstAdmissible(cands[1..], placed, bounds)
  }

  /** The result of scanning the candidates in order. */
  function Scan(cands: seq<Position>, placed: seq<PlacedWord>, bounds: Bounds): (r: Option<Position>)
    ensures r.Some? ==> r.value in cands && Admissible(r.value, placed, bounds)
    ensures r.None? <==> forall j :: 0 <= j < |cands| ==> !Admissible(cands[j], placed, bounds)
    ensures r.Some? ==> exists k :: 0 <= k < |cands| && cands[k] == r.value &&
                          forall j :: 0 <= j < k ==> !Admissible(cands[j], placed, bounds)
  {
    var k := FirstAdmissible(cands, placed, bounds);
    if k < |cands| then Some(cands[k]) else None
  }

  /** How many candidates the scan looks at before it stops. */
  function Examined(cands: seq<Position>, placed: seq<PlacedWord>, bounds: Bounds): (n: nat)
    ensures n <= |cands|
    ensures Scan(cands, placed, bounds).Some? ==> n >= 1 && cands[n - 1] == Scan(cands, placed, bounds).value
    ensures Scan(cands, placed, bounds).Some? ==> forall j :: 0 <= j < n - 1 ==> !Admissible(cands[j], placed, bounds)
    ensures Scan(cands, placed, bounds).None? ==> n == |cands|
  {
    var k := FirstAdmissible(cands, placed, bounds);
    if k < |cands| then k + 1 else |cands|
  }

  /** A scan loop that reaches an admissible candidate after only inadmissible ones returns it. */
  lemma ScanHit(cands: seq<Position>, k: nat, placed: seq<PlacedWord>, bounds: Bounds)
    requires k < |cands| && Admissible(cands[k], placed, bounds)
    requires forall j :: 0 <= j < k ==> !Admissible(cands[j], placed, bounds)
    ensures Scan(cands, placed, bounds) == Some(cands[k])
    ensures Examined(cands, placed, bounds) == k + 1
  {
  }

  /** A scan loop that runs out of candidates returns None. */
  lemma ScanMiss(cands: seq<Position>, placed: seq<PlacedWord>, bounds: Bounds)
    requires forall j :: 0 <= j < |cands| ==> !Admissible(cands[j], placed, bounds)
    ensures Scan(cands, placed, bounds) == None
    ensures Examined(cands, placed, bounds) == |cands|
  {
  }

  /** Every candidate has the requested extent. */
  predicate AllSized(cands: seq<Position>, w: real, h: real)
  {
    forall j :: 0 <= j < |cands| ==> cands[j].width == w && cands[j].height == h
  }

  /** A search result over candidates of the requested extent has that extent. */
  lemma ScanKeepsSize(cands: seq<Position>, placed: seq<PlacedWord>, bounds: Bounds, w: real, h: real)
    requires AllSized(cands, w, h)
    ensures Scan(cands, placed, bounds).Some? ==>
              Scan(cands, placed, bounds).value.width == w && Scan(cands, placed, bounds).value.height == h
  {
  }

  // ---------------------------------------------------------------- circular spiral

  /** The spiral point at (radius, angle) around the centre, as the box centred on it. */
  function SpiralPoint(centerX: real, centerY: real, radius: real, angle: real, w: real, h: real, env: Env): (p: Position)
    ensures p.width == w && p.height == h
    ensures radius == 0.0 ==> p.x == centerX - w / 2.0 && p.y == centerY - h / 2.0
  {
    Position(centerX + radius * env.cos(angle) - w / 2.0, centerY + radius * env.sin(angle) - h / 2.0, w, h)
  }

  /** Candidate k of the circular spiral: angle and radius are both k * 0.1. */
  function CircularCandidate(k: nat, centerX: real, centerY: real, w: real, h: real, env: Env): (p: Position)
    ensures p.width == w && p.height == h
    ensures k == 0 ==> p.x == centerX - w / 2.0 && p.y == centerY - h / 2.0
  {
    SpiralPoint(centerX, centerY, Offset(k, SpiralStep), Offset(k, SpiralStep), w, h, env)
  }

  /** The candidates visited while the radius stays below min(centerX, centerY). */
  function CircularCandidates(centerX: real, centerY: real, w: real, h: real, env: Env): (cs: seq<Position>)
    ensures |cs| == StepCount(Min(centerX, centerY), SpiralStep)
    ensures AllSized(cs, w, h)
  {
    seq(StepCount(Min(centerX, centerY), SpiralStep), k requires 0 <= k => CircularCandidate(k, centerX, centerY, w, h, env))
  }

  /** The spiral ends: it has at most 10 * min(centerX, centerY) + 1 candidates, none when that minimum is not positive. */
  lemma CircularBudget(centerX: real, centerY: real, w: real, h: real, env: Env)
    ensures Min(centerX, centerY) <= 0.0 ==> CircularCandidates(centerX, centerY, w, h, env) == []
    ensures (|CircularCandidates(centerX, centerY, w, h, env)| as real) < 10.0 * Min(centerX, centerY) + 1.0
            || Min(centerX, centerY) <= 0.0
  {
    var n := |CircularCandidates(centerX, centerY, w, h, env)|;
    if n > 0 {
      assert Offset(n - 1, SpiralStep) < Min(centerX, centerY);
    }
  }

  /** Into an empty layout the first spiral point, the box centred on the centre, is taken. */
  lemma CircularStartsAtCentre(centerX: real, centerY: real, w: real, h: real, env: Env)
    requires Min(centerX, centerY) > 0.0
    ensures Scan(CircularCandidates(centerX, centerY, w, h, env), [], Unbounded) ==
            Some(Position(centerX - w / 2.0, centerY - h / 2.0, w, h))
  {
    var cands := CircularCandidates(centerX, centerY, w, h, env);
    assert Offset(0, SpiralStep) < Min(centerX, centerY);
    assert cands[0] == Position(centerX - w / 2.0, centerY - h / 2.0, w, h);
    assert Admissible(cands[0], [], Unbounded);
    ScanHit(cands, 0, [], Unbounded);
  }

  /** The circular search checks no bounds: into an empty layout a word wider than the
      container is placed with its left edge outside it. */
  lemma CircularIgnoresBounds(containerWidth: real, containerHeight: real, w: real, h: real, env: Env)
    requires containerWidth > 0.0 && containerHeight > 0.0 && w > containerWidth
    ensures var r := Scan(CircularCandidates(containerWidth / 2.0, containerHeight / 2.0, w, h, env), [], Unbounded);
            r.Some? && r.value.x < 0.0 && !Inside(r.value, containerWidth, containerHeight)
  {
    CircularStartsAtCentre(containerWidth / 2.0, containerHeight / 2.0, w, h, env);
  }

  /** While the radius is below min(centerX, centerY), the spiral point at step k is candidate k. */
  lemma CircularCandidateAt(k: nat, centerX: real, centerY: real, w: real, h: real, env: Env)
    requires Offset(k, SpiralStep) < Min(centerX, centerY)
    ensures k < |CircularCandidates(centerX, centerY, w, h, env)|
    ensures CircularCandidates(centerX, centerY, w, h, env)[k] ==
            SpiralPoint(centerX, centerY, Offset(k, SpiralStep), Offset(k, SpiralStep), w, h, env)
  {
  }

  method FindCircularPosition(centerX: real, centerY: real, width: real, height: real,
                              placedWords: seq<PlacedWord>, env: Env)
    returns (r: Option<Position>)
    ensures r == Scan(CircularCandidates(centerX, centerY, width, height, env), placedWords, Unbounded)
  {
    ghost var cands := CircularCandidates(centerX, centerY, width, height, env);
    var maxRadius := Min(centerX, centerY);
    var radius := 0.0;
    var angle := 0.0;
    ghost var k: nat := 0;
    while radius < maxRadius
      invariant k <= |cands|
      invariant radius == Offset(k, SpiralStep) && angle == radius
      invariant forall j :: 0 <= j < k ==> !Admissible(cands[j], placedWords, Unbounded)
      decreases |cands| - k
    {
      var newPosition := SpiralPoint(centerX, centerY, radius, angle, width, height, env);
      CircularCandidateAt(k, centerX, centerY, width, height, env);
      if !CheckCollision(newPosition, placedWords) {
        ScanHit(cands, k, placedWords, Unbounded);
        return Some(newPosition);
      }
      angle := angle + SpiralStep;
      radius := radius + SpiralStep;
      k := k + 1;
    }
    ScanMiss(cands, placedWords, Unbounded);
    return None;
  }

  // ---------------------------------------------------------------- archimedean spiral

  /** Candidate k of the archimedean spiral: angle k * 0.1, radius A + B * angle. */
  function ArchimedeanCandidate(k: nat, centerX: real, centerY: real, w: real, h: real, env: Env): (p: Position)
    ensures p.width == w && p.height == h
    ensures k == 0 ==> p.x == centerX - w / 2.0 && p.y == centerY - h / 2.0
  {
    var angle := Offset(k, SpiralStep);
    SpiralPoint(centerX, centerY, ArchimedeanA + ArchimedeanB * angle, angle, w, h, env)
  }

  function ArchimedeanCandidates(centerX: real, centerY: real, w: real, h: real, env: Env): (cs: seq<Position>)
    ensures |cs| == MaxSpiralAttempts
    ensures AllSized(cs, w, h)
  {
    seq(MaxSpiralAttempts, k requires 0 <= k => ArchimedeanCandidate(k, centerX, centerY, w, h, env))
  }

  method FindArchimedeanPosition(centerX: real, centerY: real, width: real, height: real,
                                 placedWords: seq<PlacedWord>, env: Env)
    returns (r: Option<Position>)
    ensures r == Scan(ArchimedeanCandidates(centerX, centerY, width, height, env), placedWords,
                      Within(centerX * 2.0, centerY * 2.0))
  {
    ghost var cands := ArchimedeanCandidates(centerX, centerY, width, height, env);
    ghost var bounds := Within(centerX * 2.0, centerY * 2.0);
    var angle := 0.0;
    for attempt := 0 to MaxSpiralAttempts
      invariant angle == Offset(attempt, SpiralStep)
      invariant forall j :: 0 <= j < attempt ==> !Admissible(cands[j], placedWords, bounds)
    {
      var radius := ArchimedeanA + ArchimedeanB * angle;
      var newPosition := SpiralPoint(centerX, centerY, radius, angle, width, height, env);
      assert cands[attempt] == newPosition;
      var x, y := newPosition.x, newPosition.y;
      if x >= 0.0 && x + width <= centerX * 2.0 && y >= 0.0 && y + height <= centerY * 2.0 &&
         !CheckCollision(newPosition, placedWords) {
        ScanHit(cands, attempt, placedWords, bounds);
        return Some(newPosition);
      }
      angle := angle + SpiralStep;
    }
    ScanMiss(cands, placedWords, bounds);
    return None;
  }

  // ---------------------------------------------------------------- horizontal polar grid

  /** Number of angles of the grid: 0, 0.1, ... below 2 * Pi. */
  function AngleCount(): (n: nat)
    ensures n == 63
  {
    var n := StepCount(Pi * 2.0, SpiralStep);
    assert Offset(62, SpiralStep) < Pi * 2.0;
    assert !(Offset(63, SpiralStep) < Pi * 2.0);
    n
  }

  /** Number of radii of the grid: 0, 10, ... below half the smaller container side. */
  function RadiusCount(containerWidth: real, containerHeight: real): (n: nat)
    ensures n == 0 <==> Min(containerWidth, containerHeight) <= 0.0
  {
    var n := StepCount(Min(containerWidth, containerHeight) / 2.0, GridSize);
    assert Offset(0, GridSize) == 0.0;
    n
  }

  /** The grid point at (angle, r) jittered with draws d, d + 1 and d + 2: the radius by up to
      two grid sizes, the box by up to one grid size on each axis, and the vertical radius halved. */
  function JitteredPoint(angle: real, r: real, d: nat, containerWidth: real, containerHeight: real,
                         w: real, h: real, env: Env): (p: Position)
    ensures p.width == w && p.height == h
    ensures env.random(d) == 0.5 && env.random(d + 1) == 0.5 && env.random(d + 2) == 0.5 ==>
              p.x == containerWidth / 2.0 + env.cos(angle) * r - w / 2.0 &&
              p.y == containerHeight / 2.0 + env.sin(angle) * (r * 0.5) - h / 2.0
  {
    var randomizedR := r + (env.random(d) - 0.5) * GridSize * 4.0;
    var x := containerWidth / 2.0 + env.cos(angle) * randomizedR - w / 2.0 + (env.random(d + 1) - 0.5) * GridSize * 2.0;
    var y := containerHeight / 2.0 + env.sin(angle) * (randomizedR * 0.5) - h / 2.0 + (env.random(d + 2) - 0.5) * GridSize * 2.0;
    Position(x, y, w, h)
  }

  /** The in-container points of angle index i with radius index below n; the row's draws start at d. */
  function GridRow(i: nat, n: nat, d: nat, containerWidth: real, containerHeight: real,
                   w: real, h: real, env: Env): (row: seq<Position>)
    ensures |row| <= n
  {
    if n == 0 then []
    else
      var p := JitteredPoint(Offset(i, SpiralStep), Offset(n - 1, GridSize), d + 3 * (n - 1),
                             containerWidth, containerHeight, w, h, env);
      GridRow(i, n - 1, d, containerWidth, containerHeight, w, h, env) +
      (if Inside(p, containerWidth, containerHeight) then [p] else [])
  }

  /** Index of the first draw of row i: each grid point takes three draws. */
  function RowStart(draw: nat, radii: nat, i: nat): nat
  {
    draw + 3 * radii * i
  }

  lemma RowStartNext(draw: nat, radii: nat, i: nat)
    ensures RowStart(draw, radii, i + 1) == RowStart(draw, radii, i) + 3 * radii
  {
  }

  /** The in-container points of the angle indices below m, in push order; draws start at `draw`. */
  function GridPoints(m: nat, draw: nat, containerWidth: real, containerHeight: real,
                      w: real, h: real, env: Env): (ps: seq<Position>)
    ensures |ps| <= m * RadiusCount(containerWidth, containerHeight)
  {
    if m == 0 then []
    else
      var radii := RadiusCount(containerWidth, containerHeight);
      assert (m - 1) * radii + radii == m * radii;
      GridPoints(m - 1, draw, containerWidth, containerHeight, w, h, env) +
      GridRow(m - 1, radii, RowStart(draw, radii, m - 1), containerWidth, containerHeight, w, h, env)
  }

  /** A row keeps only points inside the container, all of the requested extent. */
  lemma {:induction false} GridRowInside(i: nat, n: nat, d: nat, containerWidth: real, containerHeight: real,
                                         w: real, h: real, env: Env)
    ensures forall p :: p in GridRow(i, n, d, containerWidth, containerHeight, w, h, env) ==>
              Inside(p, containerWidth, containerHeight) && p.width == w && p.height == h
  {
    if n > 0 {
      var p := JitteredPoint(Offset(i, SpiralStep), Offset(n - 1, GridSize), d + 3 * (n - 1),
                             containerWidth, containerHeight, w, h, env);
      GridRowInside(i, n - 1, d, containerWidth, containerHeight, w, h, env);
      assert GridRow(i, n, d, containerWidth, containerHeight, w, h, env) ==
             GridRow(i, n - 1, d, containerWidth, containerHeight, w, h, env) +
             (if Inside(p, containerWidth, containerHeight) then [p] else []);
    }
  }

  /** So does the whole grid. */
  lemma {:induction false} GridPointsInside(m: nat, draw: nat, containerWidth: real, containerHeight: real,
                                            w: real, h: real, env: Env)
    ensures forall p :: p in GridPoints(m, draw, containerWidth, containerHeight, w, h, env) ==>
              Inside(p, containerWidth, containerHeight) && p.width == w && p.height == h
  {
    if m > 0 {
      var radii := RadiusCount(containerWidth, containerHeight);
      var front := GridPoints(m - 1, draw, containerWidth, containerHeight, w, h, env);
      var row := GridRow(m - 1, radii, RowStart(draw, radii, m - 1), containerWidth, containerHeight, w, h, env);
      GridPointsInside(m - 1, draw, containerWidth, containerHeight, w, h, env);
      GridRowInside(m - 1, radii, RowStart(draw, radii, m - 1), containerWidth, containerHeight, w, h, env);
      assert GridPoints(m, draw, containerWidth, containerHeight, w, h, env) == front + row;
    }
  }

  /** The list the horizontal search builds before shuffling. */
  function HorizontalCandidates(containerWidth: real, containerHeight: real, w: real, h: real,
                                env: Env, draw: nat): (cs: seq<Position>)
    ensures |cs| <= AngleCount() * RadiusCount(containerWidth, containerHeight)
  {
    GridPoints(AngleCount(), draw, containerWidth, containerHeight, w, h, env)
  }

  /** Draws the jitter of the whole grid takes: three per grid point, kept or not. */
  function GridDraws(containerWidth: real, containerHeight: real): (n: nat)
    ensures n == 189 * RadiusCount(containerWidth, containerHeight)
  {
    3 * RadiusCount(containerWidth, containerHeight) * AngleCount()
  }

  /** The grid after `positions.sort(() => Math.random() - 0.5)`, whose comparator draws
      right after the jitter's draws. */
  function ShuffledCandidates(containerWidth: real, containerHeight: real, w: real, h: real,
                              env: Env, draw: nat): (cs: seq<Position>)
    ensures ShuffleIsPermutation(env) ==>
              multiset(cs) == multiset(HorizontalCandidates(containerWidth, containerHeight, w, h, env, draw))
  {
    env.shuffle(HorizontalCandidates(containerWidth, containerHeight, w, h, env, draw),
                draw + GridDraws(containerWidth, containerHeight))
  }

  /** Draws one horizontal search takes: the jitter's, then the comparator's. */
  function HorizontalDraws(containerWidth: real, containerHeight: real, w: real, h: real,
                           env: Env, draw: nat): (n: nat)
    ensures n >= GridDraws(containerWidth, containerHeight)
  {
    GridDraws(containerWidth, containerHeight) +
    env.sortDraws(HorizontalCandidates(containerWidth, containerHeight, w, h, env, draw),
                  draw + GridDraws(containerWidth, containerHeight))
  }

  /** After a permutation every candidate is still inside the container and of the requested extent. */
  lemma ShuffledCandidatesInside(containerWidth: real, containerHeight: real, w: real, h: real, env: Env, draw: nat)
    requires ShuffleIsPermutation(env)
    ensures forall p :: p in ShuffledCandidates(containerWidth, containerHeight, w, h, env, draw) ==>
              Inside(p, containerWidth, containerHeight) && p.width == w && p.height == h
  {
    var s := HorizontalCandidates(containerWidth, containerHeight, w, h, env, draw);
    var t := ShuffledCandidates(containerWidth, containerHeight, w, h, env, draw);
    GridPointsInside(AngleCount(), draw, containerWidth, containerHeight, w, h, env);
    forall p | p in t
      ensures Inside(p, containerWidth, containerHeight) && p.width == w && p.height == h
    {
      assert multiset(t) == multiset(s);
      assert p in multiset(t);
      assert p in multiset(s);
    }
  }

  /** When the sort compares every entry, a grid of n >= 2 kept points costs the comparator at
      least n - 1 draws on top of the jitter's. */
  lemma SortDrawsAtLeast(containerWidth: real, containerHeight: real, w: real, h: real, env: Env, draw: nat)
    requires SortComparesAll(env)
    requires |HorizontalCandidates(containerWidth, containerHeight, w, h, env, draw)| >= 2
    ensures HorizontalDraws(containerWidth, containerHeight, w, h, env, draw) >=
            GridDraws(containerWidth, containerHeight) +
            |HorizontalCandidates(containerWidth, containerHeight, w, h, env, draw)| - 1
  {
  }

  /** The final loop of the horizontal search: the first listed position that collides with nothing. */
  method FirstFree(positions: seq<Position>, placedWords: seq<PlacedWord>) returns (r: Option<Position>)
    ensures r == Scan(positions, placedWords, Unbounded)
  {
    for k := 0 to |positions|
      invariant forall j :: 0 <= j < k ==> !Admissible(positions[j], placedWords, Unbounded)
    {
      if !CheckCollision(positions[k], placedWords) {
        ScanHit(positions, k, placedWords, Unbounded);
        return Some(positions[k]);
      }
    }
    ScanMiss(positions, placedWords, Unbounded);
    return None;
  }

  /** Row i with one radius more: the point p of radius index j follows, when it is in the container. */
  lemma GridRowNext(i: nat, j: nat, d: nat, containerWidth: real, containerHeight: real,
                    w: real, h: real, env: Env, p: Position)
    requires p == JitteredPoint(Offset(i, SpiralStep), Offset(j, GridSize), d + 3 * j,
                                containerWidth, containerHeight, w, h, env)
    ensures GridRow(i, j + 1, d, containerWidth, containerHeight, w, h, env) ==
            GridRow(i, j, d, containerWidth, containerHeight, w, h, env) +
            (if Inside(p, containerWidth, containerHeight) then [p] else [])
  {
  }

  /** The inner loop of the grid: pushes the in-container points of angle index i onto `positions`. */
  method PushRow(positions: seq<Position>, angle: real, ghost i: nat, d: nat,
                 containerWidth: real, containerHeight: real, width: real, height: real, env: Env)
    returns (extended: seq<Position>, nextDraw: nat)
    requires angle == Offset(i, SpiralStep)
    ensures extended == positions + GridRow(i, RadiusCount(containerWidth, containerHeight), d,
                                            containerWidth, containerHeight, width, height, env)
    ensures nextDraw == d + 3 * RadiusCount(containerWidth, containerHeight)
  {
    ghost var radii := RadiusCount(containerWidth, containerHeight);
    extended := positions;
    nextDraw := d;
    var rad := 0.0;
    ghost var j: nat := 0;
    ghost var row: seq<Position> := [];
    while rad < Min(containerWidth, containerHeight) / 2.0
      invariant j <= radii
      invariant rad == Offset(j, GridSize)
      invariant nextDraw == d + 3 * j
      invariant row == GridRow(i, j, d, containerWidth, containerHeight, width, height, env)
      invariant extended == positions + row
      decreases radii - j
    {
      var p := JitteredPoint(angle, rad, nextDraw, containerWidth, containerHeight, width, height, env);
      GridRowNext(i, j, d, containerWidth, containerHeight, width, height, env, p);
      if Inside(p, containerWidth, containerHeight) {
        extended := extended + [p];
        assert extended == positions + (row + [p]);
        row := row + [p];
      } else {
        assert row + [] == row;
      }
      nextDraw := nextDraw + 3;
      rad := rad + GridSize;
      j := j + 1;
    }
  }

  /** The two nested loops of the grid: every jittered point inside the container, in push order. */
  method BuildGrid(containerWidth: real, containerHeight: real, width: real, height: real, env: Env, draw: nat)
    returns (positions: seq<Position>, nextDraw: nat)
    ensures positions == HorizontalCandidates(containerWidth, containerHeight, width, height, env, draw)
    ensures nextDraw == draw + GridDraws(containerWidth, containerHeight)
  {
    positions := [];
    ghost var angles := AngleCount();
    ghost var radii := RadiusCount(containerWidth, containerHeight);
    nextDraw := draw;
    var angle := 0.0;
    ghost var i: nat := 0;
    while angle < Pi * 2.0
      invariant i <= angles
      invariant angle == Offset(i, SpiralStep)
      invariant nextDraw == RowStart(draw, radii, i)
      invariant positions == GridPoints(i, draw, containerWidth, containerHeight, width, height, env)
      decreases angles - i
    {
      positions, nextDraw := PushRow(positions, angle, i, nextDraw, containerWidth, containerHeight,
                                     width, height, env);
      RowStartNext(draw, radii, i);
      angle := angle + SpiralStep;
      i := i + 1;
    }
    assert i == angles;
  }

  method FindHorizontalPosition(containerWidth: real, containerHeight: real, width: real, height: real,
                                placedWords: seq<PlacedWord>, env: Env, draw: nat)
    returns (r: Option<Position>, nextDraw: nat)
    ensures r == Scan(ShuffledCandidates(containerWidth, containerHeight, width, height, env, draw),
                      placedWords, Unbounded)
    ensures nextDraw == draw + HorizontalDraws(containerWidth, containerHeight, width, height, env, draw)
  {
    var positions, d := BuildGrid(containerWidth, containerHeight, width, height, env, draw);
    nextDraw := d + env.sortDraws(positions, d);
    positions := env.shuffle(positions, d);
    r := FirstFree(positions, placedWords);
  }

  // ---------------------------------------------------------------- loose random

  /** A coordinate drawn as `Math.random() * span`. */
  function Portion(r: real, span: real): (x: real)
    ensures r >= 0.0 && span >= 0.0 ==> x >= 0.0
    ensures r == 0.0 ==> x == 0.0
  {
    r * span
  }

  /** Candidate k of the loose search, drawn with draws `draw + 2k` and `draw + 2k + 1`. */
  function LooseCandidate(k: nat, containerWidth: real, containerHeight: real, w: real, h: real,
                          env: Env, draw: nat): (p: Position)
    ensures p.width == w && p.height == h
  {
    Position(Portion(env.random(draw + 2 * k), Span(w, containerWidth)),
             Portion(env.random(draw + 2 * k + 1), Span(h, containerHeight)), w, h)
  }

  function LooseCandidates(containerWidth: real, containerHeight: real, w: real, h: real,
                           env: Env, draw: nat): (cs: seq<Position>)
    ensures |cs| == LooseAttempts
    ensures AllSized(cs, w, h)
  {
    seq(LooseAttempts, k requires 0 <= k => LooseCandidate(k, containerWidth, containerHeight, w, h, env, draw))
  }

  /** A draw in [0, 1) scales a non-negative span to a point of [0, span]. */
  lemma PortionBetween(r: real, c: real)
    requires 0.0 <= r < 1.0 && c >= 0.0
    ensures 0.0 <= Portion(r, c) <= c
  {
    FractionOf(r, c);
  }

  /** With draws in [0, 1) and a word that fits, a loose candidate lies in the container. */
  lemma LooseCandidateInside(k: nat, containerWidth: real, containerHeight: real, w: real, h: real, env: Env, draw: nat)
    requires DrawsInUnitInterval(env)
    requires w <= containerWidth && h <= containerHeight
    ensures var p := LooseCandidate(k, containerWidth, containerHeight, w, h, env, draw);
            0.0 <= p.x <= containerWidth - w && 0.0 <= p.y <= containerHeight - h
  {
    PortionBetween(env.random(draw + 2 * k), Span(w, containerWidth));
    PortionBetween(env.random(draw + 2 * k + 1), Span(h, containerHeight));
  }

  method FindLoosePosition(containerWidth: real, containerHeight: real, width: real, height: real,
                           placedWords: seq<PlacedWord>, env: Env, draw: nat)
    returns (r: Option<Position>, nextDraw: nat)
    ensures r == Scan(LooseCandidates(containerWidth, containerHeight, width, height, env, draw), placedWords, Unbounded)
    ensures nextDraw == draw + 2 * Examined(LooseCandidates(containerWidth, containerHeight, width, height, env, draw),
                                            placedWords, Unbounded)
  {
    ghost var cands := LooseCandidates(containerWidth, containerHeight, width, height, env, draw);
    var d := draw;
    for i := 0 to LooseAttempts
      invariant d == draw + 2 * i
      invariant forall j :: 0 <= j < i ==> !Admissible(cands[j], placedWords, Unbounded)
    {
      var x := Portion(env.random(d), Span(width, containerWidth));
      var y := Portion(env.random(d + 1), Span(height, containerHeight));
      d := d + 2;
      var newPosition := Position(x, y, width, height);
      assert newPosition == cands[i] == LooseCandidate(i, containerWidth, containerHeight, width, height, env, draw);
      if !CheckCollision(newPosition, placedWords) {
        ScanHit(cands, i, placedWords, Unbounded);
        return Some(newPosition), d;
      }
    }
    ScanMiss(cands, placedWords, Unbounded);
    return None, d;
  }
}
