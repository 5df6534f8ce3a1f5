/**
 * The particle canvas: its configuration, the particles it spawns, the
 * in-place maintenance of the connection list on every frame, the
 * bounce that keeps a particle on the canvas and the frame-rate gate.
 * The distance test between particles is the caller's predicate `near`;
 * every `Math.random()` value is an input in [0, 1).
 */
module CyberGrid {
  import opened Options
  import opened Connections

  /** A closed range of particle sizes. */
  datatype SizeRange = SizeRange(min: real, max: real)

  /** The settings the canvas picks once from the performance flag. */
  datatype Config = Config(
    particleCount: nat,
    gridSize: nat,
    particleSize: SizeRange,
    connectionDistance: real,
    connectionMaxCount: nat,
    fadeOpacity: real,
    maxFPS: nat,
    particleSpeed: real,
    mouseInfluenceRadius: real,
    mouseInfluenceStrength: real)

  /**
   * The two settings: light ones in low-performance mode, denser ones
   * otherwise. Either way each particle can target at least one edge,
   * sizes form a proper range and the frame rate is positive.
   */
  function ConfigFor(isLowPerformance: bool): (c: Config)
    ensures c.connectionMaxCount >= 1 && c.maxFPS > 0
    ensures 0.0 < c.particleSize.min < c.particleSize.max
    ensures c.particleCount == (if isLowPerformance then 30 else 60)
  {
    if isLowPerformance then
      Config(30, 40, SizeRange(1.0, 2.0), 150.0, 2, 0.2, 30, 0.3, 150.0, 0.5)
    else
      Config(60, 30, SizeRange(1.0, 3.0), 200.0, 3, 0.1, 60, 0.5, 150.0, 0.5)
  }

  /**
   * One coordinate of the bounce: a position past either edge of
   * [0, limit] is put back on that edge and its speed is negated; a
   * position on the canvas keeps its position and speed.
   */
  function Reflect(pos: real, speed: real, limit: real): (r: (real, real))
    requires limit >= 0.0
    ensures 0.0 <= r.0 <= limit
    ensures 0.0 <= pos <= limit ==> r == (pos, speed)
    ensures pos < 0.0 ==> r == (0.0, -speed)
    ensures pos > limit ==> r == (limit, -speed)
  {
    if pos < 0.0 then (0.0, -speed)
    else if pos > limit then (limit, -speed)
    else (pos, speed)
  }

  /** A second bounce with no move in between changes nothing. */
  lemma ReflectIdempotent(pos: real, speed: real, limit: real)
    requires limit >= 0.0
    ensures var r := Reflect(pos, speed, limit); Reflect(r.0, r.1, limit) == r
  {
  }

  /** A particle, whose position and speed change on every frame. */
  class Particle {
    var x: real
    var y: real
    const size: real
    var speedX: real
    var speedY: real
    const opacity: real
    const connection: nat

    constructor (x: real, y: real, size: real, speedX: real, speedY: real, opacity: real, connection: nat)
      ensures this.x == x && this.y == y && this.size == size
      ensures this.speedX == speedX && this.speedY == speedY
      ensures this.opacity == opacity && this.connection == connection
    {
      this.x := x;
      this.y := y;
      this.size := size;
      this.speedX := speedX;
      this.speedY := speedY;
      this.opacity := opacity;
      this.connection := connection;
    }

    /** The particle is on a canvas of the given size. */
    predicate OnCanvas(width: real, height: real)
      reads this
    {
      0.0 <= x <= width && 0.0 <= y <= height
    }

    /** One step along the current speed. */
    method Move()
      modifies this
      ensures x == old(x) + old(speedX) && y == old(y) + old(speedY)
      ensures speedX == old(speedX) && speedY == old(speedY)
    {
      x := x + speedX;
      y := y + speedY;
    }

    /** The boundary check: each coordinate is reflected into the canvas on its own. */
    method Bounce(width: real, height: real)
      requires width >= 0.0 && height >= 0.0
      modifies this
      ensures (x, speedX) == Reflect(old(x), old(speedX), width)
      ensures (y, speedY) == Reflect(old(y), old(speedY), height)
      ensures OnCanvas(width, height)
    {
      if x < 0.0 {
        x := 0.0;
        speedX := speedX * -1.0;
      } else if x > width {
        x := width;
        speedX := speedX * -1.0;
      }
      if y < 0.0 {
        y := 0.0;
        speedY := speedY * -1.0;
      } else if y > height {
        y := height;
        speedY := speedY * -1.0;
      }
    }

    /** The particle moved by its speed, bounced onto the canvas and lost one percent of its speed. */
    twostate predicate Advanced(width: real, height: real)
      requires width >= 0.0 && height >= 0.0
      reads this
    {
      var rx := Reflect(old(x) + old(speedX), old(speedX), width);
      var ry := Reflect(old(y) + old(speedY), old(speedY), height);
      x == rx.0 && speedX == rx.1 * 0.99 && y == ry.0 && speedY == ry.1 * 0.99
    }

    /** The position part of one frame for this particle: move, bounce, friction. */
    method Advance(width: real, height: real)
      requires width >= 0.0 && height >= 0.0
      modifies this
      ensures Advanced(width, height) && OnCanvas(width, height)
    {
      Move();
      Bounce(width, height);
      Damp();
    }

    /** Friction: both speed components lose one percent. */
    method Damp()
      modifies this
      ensures x == old(x) && y == old(y)
      ensures speedX == old(speedX) * 0.99 && speedY == old(speedY) * 0.99
    {
      speedX := speedX * 0.99;
      speedY := speedY * 0.99;
    }
  }

  /** The seven `Math.random()` values one particle is spawned from, in the order they are drawn. */
  datatype ParticleDraw = ParticleDraw(x: real, y: real, size: real, speedX: real, speedY: real, opacity: real, connection: real)

  /** Every value is one `Math.random()` can return. */
  predicate UnitDraw(d: ParticleDraw) {
    && 0.0 <= d.x < 1.0 && 0.0 <= d.y < 1.0 && 0.0 <= d.size < 1.0
    && 0.0 <= d.speedX < 1.0 && 0.0 <= d.speedY < 1.0
    && 0.0 <= d.opacity < 1.0 && 0.0 <= d.connection < 1.0
  }

  /** `Math.floor(r * maxCount)`: a connection target below `maxCount`. */
  function ConnectionTarget(r: real, maxCount: nat): (t: nat)
    requires 0.0 <= r < 1.0 && maxCount >= 1
    ensures t < maxCount
  {
    var v := r * maxCount as real;
    Scaled(r, maxCount as real);
    v.Floor
  }

  /** Particle `p` is the one spawned from draw `d` on a canvas of the given size under `c`. */
  predicate Spawned(p: Particle, d: ParticleDraw, c: Config, width: real, height: real)
    requires UnitDraw(d) && c.connectionMaxCount >= 1
    reads p
  {
    && p.x == d.x * width && p.y == d.y * height
    && p.size == d.size * (c.particleSize.max - c.particleSize.min) + c.particleSize.min
    && p.speedX == (d.speedX - 0.5) * c.particleSpeed && p.speedY == (d.speedY - 0.5) * c.particleSpeed
    && p.opacity == d.opacity * 0.5 + 0.2
    && p.connection == ConnectionTarget(d.connection, c.connectionMaxCount)
  }

  /** A draw in [0, 1) scaled by a non-negative bound lands in [0, bound], below it when the bound is positive. */
  lemma Scaled(r: real, w: real)
    requires 0.0 <= r < 1.0 && w >= 0.0
    ensures 0.0 <= r * w <= w
    ensures w > 0.0 ==> r * w < w
  {
    assert w - r * w == (1.0 - r) * w;
    if w > 0.0 {
      assert (1.0 - r) * w > 0.0;
    }
  }

  /** Every draw in the list is a valid particle draw. */
  predicate UnitParticleDraws(draws: seq<ParticleDraw>) {
    forall k :: 0 <= k < |draws| ==> UnitDraw(draws[k])
  }

  /** The connection target of every particle, by index. */
  function Targets(ps: seq<Particle>): (t: seq<nat>)
    ensures |t| == |ps|
    ensures forall k :: 0 <= k < |t| ==> t[k] == ps[k].connection
  {
    seq(|ps|, k requires 0 <= k < |ps| => ps[k].connection)
  }

  /** The particles and connections of one canvas. */
  class Grid {
    const config: Config
    var particles: seq<Particle>
    var connections: seq<Connection>

    /** No particle object appears twice, and the connection list is well formed over the particles. */
    ghost predicate Valid()
      reads this
    {
      && config.connectionMaxCount >= 1
      && (forall a, b :: 0 <= a < b < |particles| ==> particles[a] != particles[b])
      && WellFormed(connections, |particles|)
    }

    constructor (isLowPerformance: bool)
      ensures config == ConfigFor(isLowPerformance)
      ensures particles == [] && connections == []
      ensures Valid()
    {
      config := ConfigFor(isLowPerformance);
      particles := [];
      connections := [];
    }

    /** One particle spawned from draw `d`. */
    method Spawn(width: real, height: real, d: ParticleDraw) returns (p: Particle)
      requires config.connectionMaxCount >= 1 && width >= 0.0 && height >= 0.0 && UnitDraw(d)
      ensures fresh(p) && Spawned(p, d, config, width, height) && p.OnCanvas(width, height)
    {
      Scaled(d.x, width);
      Scaled(d.y, height);
      var s := config.particleSize;
      p := new Particle(
        d.x * width,
        d.y * height,
        d.size * (s.max - s.min) + s.min,
        (d.speedX - 0.5) * config.particleSpeed,
        (d.speedY - 0.5) * config.particleSpeed,
        d.opacity * 0.5 + 0.2,
        ConnectionTarget(d.connection, config.connectionMaxCount));
    }

    /**
     * `initParticles`: exactly `particleCount` new particles, the k-th
     * spawned from `draws[k]`, all on the canvas, and no connections.
     */
    method InitParticles(width: real, height: real, draws: seq<ParticleDraw>)
      requires Valid() && width >= 0.0 && height >= 0.0
      requires |draws| >= config.particleCount && UnitParticleDraws(draws)
      modifies this
      ensures Valid()
      ensures |particles| == config.particleCount && connections == []
      ensures forall k :: 0 <= k < |particles| ==> fresh(particles[k])
      ensures forall k :: 0 <= k < |particles| ==> Spawned(particles[k], draws[k], config, width, height)
      ensures forall k :: 0 <= k < |particles| ==> particles[k].OnCanvas(width, height)
      ensures forall k :: 0 <= k < |particles| ==> particles[k].connection < config.connectionMaxCount
    {
      particles := [];
      var i := 0;
      while i < config.particleCount
        invariant 0 <= i <= config.particleCount && |particles| == i
        invariant forall k :: 0 <= k < i ==> fresh(particles[k])
        invariant forall a, b :: 0 <= a < b < i ==> particles[a] != particles[b]
        invariant forall k :: 0 <= k < i ==> Spawned(particles[k], draws[k], config, width, height)
        invariant forall k :: 0 <= k < i ==> particles[k].OnCanvas(width, height)
      {
        var p := Spawn(width, height, draws[i]);
        particles := particles + [p];
        i := i + 1;
      }
      connections := [];
    }

    /** The reverse pass: each connection loses a frame of life and is spliced out at zero. */
    method DecayConnections()
      modifies this
      ensures connections == Decayed(old(connections))
      ensures particles == old(particles)
    {
      ghost var cs0 := connections;
      var i := |connections| - 1;
      while i >= 0
        invariant -1 <= i < |cs0|
        invariant connections == cs0[..i + 1] + Decayed(cs0[i + 1..])
        invariant particles == old(particles)
        decreases i
      {
        DecayedStep(cs0, i, connections, connections[i := Aged(connections[i])]);
        connections := connections[i := Aged(connections[i])];
        if connections[i].life <= 0 {
          connections := connections[..i] + connections[i + 1..];
        }
        i := i - 1;
      }
      assert cs0[0..] == cs0;
    }

    /**
     * One turn of the creation scan, for particle `i`: while its degree
     * is below its target, link it to the first later near particle it is
     * not yet linked to, taking the lifetime from `r`; push nothing
     * otherwise. `pushed` says whether an edge was pushed.
     */
    method LinkOne(i: nat, near: (int, int) -> bool, r: real) returns (pushed: bool)
      requires i < |particles|
      modifies this
      ensures particles == old(particles)
      ensures match Partner(old(connections), Targets(particles), near, i)
        case Some(j) => pushed && connections == old(connections) + [NewConnection(i, j, r)]
        case None => !pushed && connections == old(connections)
    {
      var n := |particles|;
      var p1 := particles[i];
      var currentConnections := Degree(connections, i);
      pushed := false;
      if currentConnections < p1.connection {
        var j := i + 1;
        while j < n
          invariant i + 1 <= j <= n && connections == old(connections) && !pushed
          invariant FirstFree(connections, near, i, i + 1, n) == FirstFree(connections, near, i, j, n)
        {
          if near(i, j) {
            var connectionExists := Linked(connections, i, j);
            if !connectionExists {
              var maxLife := Lifetime(r);
              connections := connections + [Connection(i, j, maxLife, maxLife)];
              pushed := true;
              break;
            }
          }
          j := j + 1;
        }
      }
    }

    /**
     * The creation scan: particle by particle in index order, one turn of
     * `LinkOne`, with the particle's own draw.
     */
    method LinkParticles(near: (int, int) -> bool, draws: seq<real>)
      requires |draws| >= |particles|
      modifies this
      ensures particles == old(particles)
      ensures connections == Link(old(connections), Targets(particles), near, draws, 0)
    {
      ghost var cs0 := connections;
      ghost var targets := Targets(particles);
      var n := |particles|;
      var i := 0;
      while i < n
        invariant 0 <= i <= n && particles == old(particles) && targets == Targets(particles)
        invariant Link(connections, targets, near, draws, i) == Link(cs0, targets, near, draws, 0)
      {
        var _ := LinkOne(i, near, draws[i]);
        i := i + 1;
      }
    }

    /** One `updateConnections`: the decay pass, then the creation scan. It keeps the grid valid. */
    method UpdateConnections(near: (int, int) -> bool, draws: seq<real>)
      requires Valid() && |draws| >= |particles| && UnitDraws(draws)
      modifies this
      ensures particles == old(particles)
      ensures Valid()
      ensures connections == Link(Decayed(old(connections)), Targets(particles), near, draws, 0)
    {
      UpdateWellFormed(connections, Targets(particles), near, draws);
      DecayConnections();
      LinkParticles(near, draws);
    }

    /**
     * The position part of the particle loop: every particle advances
     * once, and afterwards every particle is on the canvas.
     */
    method MoveParticles(width: real, height: real)
      requires Valid() && width >= 0.0 && height >= 0.0
      modifies particles
      ensures forall k :: 0 <= k < |particles| ==> particles[k].Advanced(width, height)
      ensures forall k :: 0 <= k < |particles| ==> particles[k].OnCanvas(width, height)
    {
      var n := |particles|;
      for i := 0 to n
        invariant forall k :: 0 <= k < i ==> particles[k].Advanced(width, height)
        invariant forall k :: 0 <= k < i ==> particles[k].OnCanvas(width, height)
        invariant forall k :: i <= k < n ==> unchanged(particles[k])
      {
        assert forall k :: 0 <= k < n && k != i ==> particles[k] != particles[i];
        particles[i].Advance(width, height);
      }
    }
  }

  /** The frame-rate gate of the animation loop. */
  class FrameGate {
    const targetFrameTime: real
    var lastTime: real

    constructor (maxFPS: nat)
      requires maxFPS > 0
      ensures targetFrameTime == 1000.0 / maxFPS as real && targetFrameTime > 0.0
      ensures lastTime == 0.0
    {
      targetFrameTime := 1000.0 / maxFPS as real;
      lastTime := 0.0;
    }

    /** A frame is drawn only once `targetFrameTime` has passed since the last drawn frame. */
    method Frame(currentTime: real) returns (render: bool)
      modifies this
      ensures render <==> currentTime - old(lastTime) >= targetFrameTime
      ensures lastTime == if render then currentTime else old(lastTime)
    {
      if currentTime - lastTime < targetFrameTime {
        return false;
      }
      lastTime := currentTime;
      return true;
    }
  }

  /** The times among `times` at which a gate last drawn at `last` draws a frame. */
  function Rendered(times: seq<real>, last: real, target: real): seq<real> {
    if times == [] then []
    else if times[0] - last < target then Rendered(times[1..], last, target)
    else [times[0]] + Rendered(times[1..], times[0], target)
  }

  /**
   * Frames are drawn at least `target` apart: the first one at least
   * `target` after `last`, and each later one at least `target` after
   * the one before it. Every drawn time is one of the offered times.
   */
  lemma {:induction false} RenderedSpaced(times: seq<real>, last: real, target: real)
    ensures var r := Rendered(times, last, target);
      && |r| <= |times|
      && (forall k :: 0 <= k < |r| ==> r[k] in times)
      && (|r| > 0 ==> r[0] - last >= target)
      && (forall k :: 0 < k < |r| ==> r[k] - r[k - 1] >= target)
  {
    if times != [] {
      RenderedSpaced(times[1..], last, target);
      RenderedSpaced(times[1..], times[0], target);
      var r := Rendered(times, last, target);
      if times[0] - last >= target {
        var rest := Rendered(times[1..], times[0], target);
        assert r == [times[0]] + rest;
        forall k | 0 < k < |r|
          ensures r[k] - r[k - 1] >= target
        {
          assert r[k] == rest[k - 1];
          if k > 1 {
            assert r[k - 1] == rest[k - 2];
          }
        }
      }
    }
  }
}
