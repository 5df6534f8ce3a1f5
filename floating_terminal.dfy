/**
 * The floating monitor window: every tick appends a time-stamped message
 * picked at random from a fixed list and keeps only the five newest
 * lines; a close button hides the window for good. The clock's text and
 * the random number are inputs to the tick.
 */
module FloatingTerminal {
  import opened Options

  /** The nine messages the monitor can print. */
  const SecurityLogs: seq<string> := [
    "[RECON] Satellite surveillance active...",
    "[SCAN] Monitoring tactical frequencies...",
    "[OK] No hostile contacts detected",
    "[INFO] Perimeter security: SECURED",
    "[SCAN] Analyzing network traffic...",
    "[OK] All systems operational",
    "[INFO] Counter-surveillance: ACTIVE",
    "[SCAN] Threat assessment in progress...",
    "[OK] Mission parameters verified"
  ]

  /** The most lines the window keeps. */
  const MaxLogs := 5

  /** `securityLogs[Math.floor(r * securityLogs.length)]` for a random `r` in [0, 1). */
  function PickLog(r: real): (m: string)
    requires 0.0 <= r < 1.0
    ensures m in SecurityLogs
  {
    var v := r * |SecurityLogs| as real;
    assert 0.0 <= v < |SecurityLogs| as real;
    SecurityLogs[v.Floor]
  }

  /** A log line as it is built: the clock's text and the message picked. */
  datatype Line = Line(stamp: string, message: string)

  /** The text of a line: the time stamp, a space and the message. */
  function Text(l: Line): (e: string)
    ensures |e| == |l.stamp| + 1 + |l.message|
    ensures e[..|l.stamp|] == l.stamp && e[|l.stamp|] == ' ' && e[|l.stamp| + 1..] == l.message
  {
    l.stamp + " " + l.message
  }

  /** `f` applied to every element. */
  function Map<A, B>(xs: seq<A>, f: A -> B): (r: seq<B>)
    ensures |r| == |xs| && forall k :: 0 <= k < |xs| ==> r[k] == f(xs[k])
  {
    seq(|xs|, k requires 0 <= k < |xs| => f(xs[k]))
  }

  /** `slice(-5)`: the last five elements, or all of them when there are fewer. */
  function LastFive<T>(s: seq<T>): (r: seq<T>)
    ensures |r| == if |s| < MaxLogs then |s| else MaxLogs
    ensures r == s[|s| - |r|..]
  {
    if |s| <= MaxLogs then s else s[|s| - MaxLogs..]
  }

  /** What one tick does to the list: append, then keep the newest five. */
  function Appended<T>(prev: seq<T>, entry: T): (r: seq<T>)
    ensures |r| == if |prev| < MaxLogs then |prev| + 1 else MaxLogs
    ensures r[|r| - 1] == entry
    ensures r[..|r| - 1] == prev[|prev| - (|r| - 1)..]
  {
    var r := LastFive(prev + [entry]);
    assert r[..|r| - 1] == (prev + [entry])[|prev| + 1 - |r|..|prev|];
    r
  }

  /** Every element of the new list is the new entry or was in the old list. */
  lemma AppendedFrom<T>(prev: seq<T>, entry: T)
    ensures forall y :: y in Appended(prev, entry) ==> y == entry || y in prev
  {
    var r := Appended(prev, entry);
    forall y | y in r
      ensures y == entry || y in prev
    {
      var k :| 0 <= k < |r| && r[k] == y;
      if k < |r| - 1 {
        assert r[k] == r[..|r| - 1][k];
      }
    }
  }

  /** Appending commutes with mapping. */
  lemma AppendedMap<A, B>(prev: seq<A>, entry: A, f: A -> B)
    ensures Appended(Map(prev, f), f(entry)) == Map(Appended(prev, entry), f)
  {
    var l := Appended(Map(prev, f), f(entry));
    var r := Map(Appended(prev, entry), f);
    forall k | 0 <= k < |l|
      ensures l[k] == r[k]
    {
      if k < |l| - 1 {
        assert l[k] == l[..|l| - 1][k];
        assert Appended(prev, entry)[k] == Appended(prev, entry)[..|l| - 1][k];
      }
    }
  }

  /** The list after a run of ticks that append `entries` in order. */
  function AfterTicks<T>(prev: seq<T>, entries: seq<T>): seq<T>
    decreases |entries|
  {
    if entries == [] then prev
    else AfterTicks(Appended(prev, entries[0]), entries[1..])
  }

  /**
   * However many ticks run, the window shows exactly the newest five of
   * all the lines ever appended to it, oldest first.
   */
  lemma {:induction false} AfterTicksWindow<T>(prev: seq<T>, entries: seq<T>)
    requires |prev| <= MaxLogs
    decreases |entries|
    ensures AfterTicks(prev, entries) == LastFive(prev + entries)
  {
    if entries != [] {
      var a := prev + [entries[0]];
      var rest := entries[1..];
      var next := Appended(prev, entries[0]);
      assert next == LastFive(a);
      calc {
        AfterTicks(prev, entries);
        AfterTicks(next, rest);
        { AfterTicksWindow(next, rest); }
        LastFive(next + rest);
        { LastFiveAppend(a, rest); }
        LastFive(a + rest);
        { assert a + rest == prev + entries; }
        LastFive(prev + entries);
      }
    }
  }

  /** Taking the newest five first does not change the newest five after more lines. */
  lemma LastFiveAppend<T>(a: seq<T>, b: seq<T>)
    ensures LastFive(LastFive(a) + b) == LastFive(a + b)
  {
    var ab := a + b;
    if |a| > MaxLogs {
      var t := LastFive(a) + b;
      assert t == ab[|a| - MaxLogs..];
      assert LastFive(t) == t[|t| - |LastFive(t)|..];
    }
  }

  /** At most five lines shown, each the text of a kept line whose message is one of the nine. */
  ghost predicate Consistent(logs: seq<string>, lines: seq<Line>) {
    && |logs| <= MaxLogs && logs == Map(lines, Text)
    && forall l :: l in lines ==> l.message in SecurityLogs
  }

  /** A tick with one of the nine messages keeps the window consistent. */
  lemma TickConsistent(logs: seq<string>, lines: seq<Line>, line: Line)
    requires Consistent(logs, lines) && line.message in SecurityLogs
    ensures Consistent(Appended(logs, Text(line)), Appended(lines, line))
  {
    AppendedMap(lines, line, Text);
    AppendedFrom(lines, line);
  }

  /** The monitor window. */
  class Monitor {
    var logs: seq<string>
    var isVisible: bool
    /** The time stamp and message each line was built from. */
    ghost var lines: seq<Line>

    /** At most five lines, each a time stamp, a space and one of the nine messages. */
    ghost predicate Valid()
      reads this
    {
      Consistent(logs, lines)
    }

    constructor ()
      ensures Valid() && logs == [] && isVisible
    {
      logs := [];
      isVisible := true;
      lines := [];
    }

    /** One interval tick, with the clock's text and the random number. */
    method Tick(timestamp: string, r: real)
      requires Valid() && 0.0 <= r < 1.0
      modifies this
      ensures Valid()
      ensures logs == Appended(old(logs), Text(Line(timestamp, PickLog(r))))
      ensures isVisible == old(isVisible)
    {
      var randomLog := PickLog(r);
      var line := Line(timestamp, randomLog);
      TickConsistent(logs, lines, line);
      logs := Appended(logs, Text(line));
      lines := Appended(lines, line);
    }

    /** The close button. */
    method Close()
      modifies this
      ensures !isVisible && logs == old(logs)
    {
      isVisible := false;
    }

    /** What the component renders: nothing once closed, otherwise its lines. */
    function Render(): (r: Option<seq<string>>)
      reads this
      ensures r.None? <==> !isVisible
      ensures r.Some? ==> r.value == logs
    {
      if !isVisible then None else Some(logs)
    }
  }
}
