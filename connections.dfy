/**
 * The connection list of the particle canvas, as values: what one call of
 * `updateConnections` does to it. The first pass takes one frame of life
 * from every connection and drops those that reach zero; the second scans
 * the particles in index order and links each one, at most once per call,
 * to the first later particle that is near it and not yet linked to it.
 * How near two particles are is the caller's predicate `near`; the random
 * numbers the source draws are passed in as `draws`, each in [0, 1).
 */
module Connections {
  import opened Options

  /** An edge between particles `from` and `to` with `life` of `maxLife` frames left. */
  datatype Connection = Connection(from: int, to: int, life: int, maxLife: int)

  /** `c` joins `i` and `j`, in either direction. */
  predicate Joins(c: Connection, i: int, j: int) {
    (c.from == i && c.to == j) || (c.from == j && c.to == i)
  }

  /** `c` has `i` as an endpoint. */
  predicate Touches(c: Connection, i: int) {
    c.from == i || c.to == i
  }

  /** `connections.some(...)`: some connection already joins `i` and `j`. */
  predicate Linked(cs: seq<Connection>, i: int, j: int) {
    exists k :: 0 <= k < |cs| && Joins(cs[k], i, j)
  }

  /** `connections.filter(c => c.from === i || c.to === i).length`. */
  function Degree(cs: seq<Connection>, i: int): (d: nat)
    ensures d <= |cs|
    ensures d == 0 <==> forall k :: 0 <= k < |cs| ==> !Touches(cs[k], i)
  {
    if cs == [] then 0
    else Degree(cs[..|cs| - 1], i) + (if Touches(cs[|cs| - 1], i) then 1 else 0)
  }

  /** Life left is between one frame and the whole lifetime, and the lifetime is one `Lifetime` can draw. */
  predicate Live(c: Connection) {
    1 <= c.life <= c.maxLife && 100 <= c.maxLife <= 299
  }

  /**
   * The invariant of the connection list over `n` particles: every edge
   * goes from a lower to a higher valid index and is live, and no two
   * edges join the same pair of particles.
   */
  predicate WellFormed(cs: seq<Connection>, n: int) {
    && (forall k :: 0 <= k < |cs| ==> 0 <= cs[k].from < cs[k].to < n && Live(cs[k]))
    && (forall a, b :: 0 <= a < b < |cs| ==> !Joins(cs[b], cs[a].from, cs[a].to))
  }

  /** `Math.floor(r * 200) + 100` for a random `r` in [0, 1): a lifetime in [100, 299]. */
  function Lifetime(r: real): (m: int)
    ensures 0.0 <= r < 1.0 ==> 100 <= m <= 299
  {
    (r * 200.0).Floor + 100
  }

  /** The connection pushed for `i` and `j`: it starts with its whole lifetime left. */
  function NewConnection(i: int, j: int, r: real): (c: Connection)
    ensures c.from == i && c.to == j && c.life == c.maxLife == Lifetime(r)
    ensures 0.0 <= r < 1.0 ==> Live(c)
  {
    var m := Lifetime(r);
    Connection(i, j, m, m)
  }

  /** One frame less to live. */
  function Aged(c: Connection): Connection {
    c.(life := c.life - 1)
  }

  /**
   * The reverse-index pass: every connection loses one frame of life and
   * those left with none are removed; the survivors keep their order.
   */
  function Decayed(cs: seq<Connection>): (r: seq<Connection>)
    ensures |r| <= |cs|
    ensures forall k :: 0 <= k < |r| ==> r[k].life >= 1
  {
    if cs == [] then []
    else
      var c := Aged(cs[0]);
      (if c.life <= 0 then [] else [c]) + Decayed(cs[1..])
  }

  /**
   * One turn of the reverse pass at index `i`, with every later index done:
   * ageing `cs[i]` into `a`, and splicing it out at zero, leaves every index
   * from `i` on done.
   */
  lemma DecayedStep(cs0: seq<Connection>, i: nat, cs: seq<Connection>, a: seq<Connection>)
    requires i < |cs0| && cs == cs0[..i + 1] + Decayed(cs0[i + 1..])
    requires i < |cs| && a == cs[i := Aged(cs[i])]
    ensures a[i].life <= 0 ==> a[..i] + a[i + 1..] == cs0[..i] + Decayed(cs0[i..])
    ensures a[i].life > 0 ==> a == cs0[..i] + Decayed(cs0[i..])
  {
    DecayedUnfold(cs0, i);
    Middle(cs0[..i + 1], cs0[..i], cs0[i], Decayed(cs0[i + 1..]), cs, a);
  }

  /** The pass over the list from index `i` on: the aged `cs[i]` if it survives, then the pass from `i + 1`. */
  lemma DecayedUnfold(cs: seq<Connection>, i: nat)
    requires i < |cs|
    ensures cs[..i + 1] == cs[..i] + [cs[i]]
    ensures Decayed(cs[i..]) == (if Aged(cs[i]).life <= 0 then [] else [Aged(cs[i])]) + Decayed(cs[i + 1..])
  {
    assert cs[i..][0] == cs[i] && cs[i..][1..] == cs[i + 1..];
  }

  /** Ageing, then removing, the element `x` between `p` and `rest`. */
  lemma Middle(q: seq<Connection>, p: seq<Connection>, x: Connection, rest: seq<Connection>, cs: seq<Connection>, a: seq<Connection>)
    requires q == p + [x] && cs == q + rest && |p| < |cs| && a == cs[|p| := Aged(cs[|p|])]
    ensures a[|p|] == Aged(x)
    ensures a == p + ([Aged(x)] + rest)
    ensures a[..|p|] + a[|p| + 1..] == p + ([] + rest)
  {
    assert cs[|p|] == x;
    assert a[..|p|] == p;
    assert a[|p| + 1..] == rest;
  }

  /**
   * The indices of the connections that survive the pass, in increasing
   * order, counted from `base`.
   */
  ghost function Survivors(cs: seq<Connection>, base: int): seq<int> {
    if cs == [] then []
    else (if cs[0].life > 1 then [base] else []) + Survivors(cs[1..], base + 1)
  }

  /** The survivor indices lie in the list and increase. */
  lemma {:induction false} SurvivorsIncrease(cs: seq<Connection>, base: int)
    ensures forall k :: 0 <= k < |Survivors(cs, base)| ==> base <= Survivors(cs, base)[k] < base + |cs|
    ensures forall a, b :: 0 <= a < b < |Survivors(cs, base)| ==> Survivors(cs, base)[a] < Survivors(cs, base)[b]
  {
    if cs != [] {
      SurvivorsIncrease(cs[1..], base + 1);
      var head := if cs[0].life > 1 then [base] else [];
      var rest := Survivors(cs[1..], base + 1);
      var idx := head + rest;
      assert Survivors(cs, base) == idx;
      forall k | 0 <= k < |idx|
        ensures base <= idx[k] < base + |cs|
        ensures k >= |head| ==> idx[k] > base
      {
        if k >= |head| {
          assert idx[k] == rest[k - |head|];
        }
      }
      forall a, b | 0 <= a < b < |idx|
        ensures idx[a] < idx[b]
      {
        assert idx[b] == rest[b - |head|];
        if a >= |head| {
          assert idx[a] == rest[a - |head|];
        }
      }
    }
  }

  /** An index is a survivor exactly when its connection had more than one frame left. */
  lemma {:induction false} SurvivorsExactly(cs: seq<Connection>, base: int)
    ensures forall m :: 0 <= m < |cs| ==> (base + m in Survivors(cs, base) <==> cs[m].life > 1)
  {
    if cs != [] {
      SurvivorsExactly(cs[1..], base + 1);
      SurvivorsIncrease(cs[1..], base + 1);
      var head := if cs[0].life > 1 then [base] else [];
      var rest := Survivors(cs[1..], base + 1);
      assert Survivors(cs, base) == head + rest;
      forall m | 0 <= m < |cs|
        ensures base + m in Survivors(cs, base) <==> cs[m].life > 1
      {
        if m > 0 {
          assert cs[m] == cs[1..][m - 1];
          assert base + m !in head;
          assert base + m in rest <==> cs[m].life > 1;
        }
      }
    }
  }

  /**
   * The k-th connection left by the pass is the one at the k-th survivor
   * index, one frame older.
   */
  lemma {:induction false} DecayedKeepsOrder(cs: seq<Connection>, base: int)
    ensures var idx := Survivors(cs, base);
      && |Decayed(cs)| == |idx|
      && forall k :: 0 <= k < |idx| ==> 0 <= idx[k] - base < |cs| && Decayed(cs)[k] == Aged(cs[idx[k] - base])
  {
    SurvivorsIncrease(cs, base);
    if cs != [] {
      DecayedKeepsOrder(cs[1..], base + 1);
      var idx := Survivors(cs, base);
      var rest := Survivors(cs[1..], base + 1);
      var head := if Aged(cs[0]).life <= 0 then [] else [Aged(cs[0])];
      forall k | 0 <= k < |idx|
        ensures 0 <= idx[k] - base < |cs| && Decayed(cs)[k] == Aged(cs[idx[k] - base])
      {
        if k >= |head| {
          assert idx[k] == rest[k - |head|];
          assert Decayed(cs)[k] == Decayed(cs[1..])[k - |head|];
          assert cs[1..][idx[k] - base - 1] == cs[idx[k] - base];
        }
      }
    }
  }

  /** The pass keeps the list well formed over the same particles. */
  lemma DecayedWellFormed(cs: seq<Connection>, n: int)
    requires WellFormed(cs, n)
    ensures WellFormed(Decayed(cs), n)
  {
    DecayedKeepsOrder(cs, 0);
    SurvivorsIncrease(cs, 0);
    AgedSubsequence(cs, Decayed(cs), Survivors(cs, 0), n);
  }

  /**
   * Aged copies, still alive, of connections taken from a well-formed list
   * at increasing positions `idx` form a well-formed list.
   */
  lemma AgedSubsequence(cs: seq<Connection>, r: seq<Connection>, idx: seq<int>, n: int)
    requires WellFormed(cs, n)
    requires |r| == |idx|
    requires forall k :: 0 <= k < |r| ==> r[k].life >= 1
    requires forall k :: 0 <= k < |idx| ==> 0 <= idx[k] < |cs| && r[k] == Aged(cs[idx[k]])
    requires forall a, b :: 0 <= a < b < |idx| ==> idx[a] < idx[b]
    ensures WellFormed(r, n)
  {
    forall k | 0 <= k < |r|
      ensures 0 <= r[k].from < r[k].to < n && Live(r[k])
    {
      assert r[k] == Aged(cs[idx[k]]);
    }
    forall a, b | 0 <= a < b < |r|
      ensures !Joins(r[b], r[a].from, r[a].to)
    {
      assert idx[a] < idx[b];
    }
  }

  /**
   * The inner `for j` loop of particle `i`, from `j` on: the first later
   * particle that is near `i` and not yet linked to it, if there is one.
   */
  function FirstFree(cs: seq<Connection>, near: (int, int) -> bool, i: int, j: int, n: int): (r: Option<int>)
    decreases n - j
    ensures r.Some? ==> j <= r.value < n && near(i, r.value) && !Linked(cs, i, r.value)
    ensures r.Some? ==> forall k :: j <= k < r.value ==> !near(i, k) || Linked(cs, i, k)
    ensures r.None? ==> forall k :: j <= k < n ==> !near(i, k) || Linked(cs, i, k)
  {
    if j >= n then None
    else if near(i, j) && !Linked(cs, i, j) then Some(j)
    else FirstFree(cs, near, i, j + 1, n)
  }

  /** Every draw is a value `Math.random()` can return. */
  predicate UnitDraws(draws: seq<real>) {
    forall k :: 0 <= k < |draws| ==> 0.0 <= draws[k] < 1.0
  }

  /** The edge particle `i` gets in the scan, given the list as it stands when its turn comes. */
  function Partner(cs: seq<Connection>, targets: seq<nat>, near: (int, int) -> bool, i: nat): (r: Option<int>)
    requires i < |targets|
    ensures Degree(cs, i) >= targets[i] ==> r.None?
    ensures r.Some? ==> i < r.value < |targets| && near(i, r.value) && !Linked(cs, i, r.value)
    ensures r.Some? ==> forall k :: i < k < r.value ==> !near(i, k) || Linked(cs, i, k)
    ensures r.None? && Degree(cs, i) < targets[i] ==> forall k :: i < k < |targets| ==> !near(i, k) || Linked(cs, i, k)
  {
    if Degree(cs, i) < targets[i] then FirstFree(cs, near, i, i + 1, |targets|) else None
  }

  /**
   * The creation scan over particles `i` and on, whose connection targets
   * are `targets`. A particle whose degree has not reached its target is
   * linked to its first free near partner, taking its lifetime from its
   * own draw `draws[i]`. The old list is kept as a prefix and at most one
   * edge is pushed per particle scanned.
   */
  function Link(cs: seq<Connection>, targets: seq<nat>, near: (int, int) -> bool, draws: seq<real>, i: nat): (r: seq<Connection>)
    requires i <= |targets| <= |draws|
    decreases |targets| - i
    ensures |cs| <= |r| <= |cs| + |targets| - i && r[..|cs|] == cs
  {
    if i == |targets| then cs
    else
      match Partner(cs, targets, near, i)
      case Some(j) =>
        var r := Link(cs + [NewConnection(i, j, draws[i])], targets, near, draws, i + 1);
        assert r[..|cs|] == r[..|cs| + 1][..|cs|];
        r
      case None => Link(cs, targets, near, draws, i + 1)
  }

  /**
   * What the edge at position `k` of `r` is when the scan pushed it: it
   * goes from a lower to a higher valid index, starts with its whole
   * lifetime left, drawn for its particle, joins two near particles that
   * were not linked before it, goes to the first such partner, and its
   * particle's degree was still below its target.
   */
  predicate Pushed(r: seq<Connection>, k: int, targets: seq<nat>, near: (int, int) -> bool, draws: seq<real>)
    requires 0 <= k < |r| && |targets| <= |draws|
  {
    var c := r[k];
    && 0 <= c.from < c.to < |targets|
    && c.life == c.maxLife == Lifetime(draws[c.from])
    && near(c.from, c.to) && !Linked(r[..k], c.from, c.to)
    && (forall m :: c.from < m < c.to ==> !near(c.from, m) || Linked(r[..k], c.from, m))
    && Degree(r[..k], c.from) < targets[c.from]
  }

  /**
   * Every edge the scan pushes comes from a particle scanned, and from a
   * later particle than the edge before it, so no particle gets two new
   * edges in one scan.
   */
  lemma {:induction false} LinkOrdered(cs: seq<Connection>, targets: seq<nat>, near: (int, int) -> bool, draws: seq<real>, i: nat)
      returns (r: seq<Connection>)
    requires i <= |targets| <= |draws|
    decreases |targets| - i
    ensures r == Link(cs, targets, near, draws, i)
    ensures forall k :: |cs| <= k < |r| ==> i <= r[k].from
    ensures forall a, b :: |cs| <= a < b < |r| ==> r[a].from < r[b].from
  {
    r := Link(cs, targets, near, draws, i);
    if i < |targets| {
      match Partner(cs, targets, near, i)
      case Some(j) =>
        var c := NewConnection(i, j, draws[i]);
        var r' := LinkOrdered(cs + [c], targets, near, draws, i + 1);
        assert r == r';
        assert r[|cs|] == r[..|cs| + 1][|cs|] == (cs + [c])[|cs|];
        OrderedFrom(r, |cs|, i);
      case None =>
        var r' := LinkOrdered(cs, targets, near, draws, i + 1);
    }
  }

  /** An edge from particle `i` in front of edges from later particles, in increasing order, keeps the order. */
  lemma OrderedFrom(r: seq<Connection>, n: nat, i: nat)
    requires n < |r| && r[n].from == i
    requires forall k :: n + 1 <= k < |r| ==> i + 1 <= r[k].from
    requires forall a, b :: n + 1 <= a < b < |r| ==> r[a].from < r[b].from
    ensures forall k :: n <= k < |r| ==> i <= r[k].from
    ensures forall a, b :: n <= a < b < |r| ==> r[a].from < r[b].from
  {
  }

  /** Every edge the scan pushes satisfies `Pushed`. */
  lemma {:induction false} LinkPushes(cs: seq<Connection>, targets: seq<nat>, near: (int, int) -> bool, draws: seq<real>, i: nat)
      returns (r: seq<Connection>)
    requires i <= |targets| <= |draws|
    decreases |targets| - i
    ensures r == Link(cs, targets, near, draws, i)
    ensures forall k :: |cs| <= k < |r| ==> Pushed(r, k, targets, near, draws)
  {
    r := Link(cs, targets, near, draws, i);
    if i < |targets| {
      match Partner(cs, targets, near, i)
      case Some(j) =>
        var c := NewConnection(i, j, draws[i]);
        var r' := LinkPushes(cs + [c], targets, near, draws, i + 1);
        assert r == r';
        PushedFirst(cs, c, r, targets, near, draws, i);
        forall k | |cs| <= k < |r|
          ensures Pushed(r, k, targets, near, draws)
        {
          if k > |cs| {
            assert |cs + [c]| <= k;
          }
        }
      case None =>
        var r' := LinkPushes(cs, targets, near, draws, i + 1);
    }
  }

  /** The edge pushed for particle `i` when its turn comes satisfies `Pushed`. */
  lemma PushedFirst(cs: seq<Connection>, c: Connection, r: seq<Connection>, targets: seq<nat>, near: (int, int) -> bool, draws: seq<real>, i: nat)
    requires i < |targets| <= |draws|
    requires Partner(cs, targets, near, i).Some?
    requires c == NewConnection(i, Partner(cs, targets, near, i).value, draws[i])
    requires |r| > |cs| && r[..|cs| + 1] == cs + [c]
    ensures r[|cs|] == c && Pushed(r, |cs|, targets, near, draws)
  {
    assert r[|cs|] == (cs + [c])[|cs|];
    assert r[..|cs|] == cs;
  }

  /** One scan keeps the list well formed. */
  lemma LinkWellFormed(cs: seq<Connection>, targets: seq<nat>, near: (int, int) -> bool, draws: seq<real>, i: nat)
    requires i <= |targets| <= |draws| && UnitDraws(draws)
    requires WellFormed(cs, |targets|)
    ensures WellFormed(Link(cs, targets, near, draws, i), |targets|)
  {
    var r := LinkPushes(cs, targets, near, draws, i);
    forall k | 0 <= k < |r|
      ensures 0 <= r[k].from < r[k].to < |targets| && Live(r[k])
    {
      if k >= |cs| {
        assert Pushed(r, k, targets, near, draws);
        assert 0 <= r[k].from < |draws|;
      } else {
        assert r[k] == cs[k];
      }
    }
    forall a, b | 0 <= a < b < |r|
      ensures !Joins(r[b], r[a].from, r[a].to)
    {
      if b >= |cs| {
        assert Pushed(r, b, targets, near, draws);
        assert r[..b][a] == r[a];
        if Joins(r[b], r[a].from, r[a].to) {
          assert Joins(r[..b][a], r[b].from, r[b].to);
        }
      } else {
        assert r[a] == cs[a] && r[b] == cs[b];
      }
    }
  }

  /**
   * One whole `updateConnections` on a well-formed list: the result is
   * well formed again, so every edge is live (1 <= life <= maxLife), has
   * `from < to`, indexes valid particles, and no pair is linked twice.
   */
  lemma UpdateWellFormed(cs: seq<Connection>, targets: seq<nat>, near: (int, int) -> bool, draws: seq<real>)
    requires |draws| >= |targets| && UnitDraws(draws)
    requires WellFormed(cs, |targets|)
    ensures WellFormed(Link(Decayed(cs), targets, near, draws, 0), |targets|)
  {
    DecayedWellFormed(cs, |targets|);
    LinkWellFormed(Decayed(cs), targets, near, draws, 0);
  }
}
