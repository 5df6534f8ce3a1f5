/** The responsive-design report: orientation, breakpoint, device score and advice. */
module Responsive {
  import opened Options
  import Skills

  datatype Orientation = Landscape | Portrait

  /** A viewport wider than it is tall is in landscape. */
  function OrientationOf(width: int, height: int): (o: Orientation)
    ensures o == Landscape <==> width > height
  {
    if width > height then Landscape else Portrait
  }

  /** The six breakpoint keys, xs to 2xl. */
  datatype Key = XS | SM | MD | LG | XL | XXL

  /** A width range `[min, max]`; the widest has no upper end. */
  datatype Breakpoint = Breakpoint(key: Key, min: int, max: Option<int>)

  /** The breakpoint table, in the order the report walks it. */
  const Table: seq<Breakpoint> := [
    Breakpoint(XS, 0, Some(479)),
    Breakpoint(SM, 480, Some(767)),
    Breakpoint(MD, 768, Some(1023)),
    Breakpoint(LG, 1024, Some(1279)),
    Breakpoint(XL, 1280, Some(1535)),
    Breakpoint(XXL, 1536, None)
  ]

  /** `width` lies inside the range of `b`. */
  predicate Active(b: Breakpoint, width: int) {
    width >= b.min && (b.max.None? || width <= b.max.value)
  }

  /** The key of the last active entry of `bs`, which is what the walk leaves in `currentBreakpoint`. */
  function LastActive(bs: seq<Breakpoint>, width: int): (r: Option<Key>)
    ensures r.Some? <==> exists i :: 0 <= i < |bs| && Active(bs[i], width)
    ensures r.Some? ==> exists i :: 0 <= i < |bs| && Active(bs[i], width) && bs[i].key == r.value
  {
    if |bs| == 0 then None
    else if Active(bs[|bs| - 1], width) then Some(bs[|bs| - 1].key)
    else LastActive(bs[..|bs| - 1], width)
  }

  /** The breakpoint of a width, written as a chain of thresholds; a negative width has none. */
  function BreakpointOf(width: int): Option<Key> {
    if width < 0 then None
    else if width <= 479 then Some(XS)
    else if width <= 767 then Some(SM)
    else if width <= 1023 then Some(MD)
    else if width <= 1279 then Some(LG)
    else if width <= 1535 then Some(XL)
    else Some(XXL)
  }

  /** The index of the table entry a width from 0 up falls in. */
  function IndexOf(width: int): (i: nat)
    requires width >= 0
    ensures i < |Table| && Active(Table[i], width)
    ensures Some(Table[i].key) == BreakpointOf(width)
  {
    if width <= 479 then 0 else if width <= 767 then 1 else if width <= 1023 then 2
    else if width <= 1279 then 3 else if width <= 1535 then 4 else 5
  }

  /** Every width from 0 up lies in exactly one range of the table, and no negative width lies in any. */
  lemma ExactlyOne(width: int)
    ensures width >= 0 ==> exists i :: 0 <= i < |Table| && Active(Table[i], width)
    ensures forall i, j :: 0 <= i < |Table| && 0 <= j < |Table| && Active(Table[i], width) && Active(Table[j], width) ==> i == j
    ensures width < 0 ==> forall i :: 0 <= i < |Table| ==> !Active(Table[i], width)
  {
    if width >= 0 {
      var i := IndexOf(width);
    }
  }

  /** The walk over the table finds the breakpoint given by the chain of thresholds. */
  lemma LastActiveIsBreakpoint(width: int)
    ensures LastActive(Table, width) == BreakpointOf(width)
  {
    ExactlyOne(width);
    var r := LastActive(Table, width);
    if width >= 0 {
      var i := IndexOf(width);
      var j :| 0 <= j < |Table| && Active(Table[j], width) && Table[j].key == r.value;
      assert i == j;
    }
  }

  /** Walk the table and keep the key of every active entry; the last one stays. */
  method CurrentBreakpoint(width: int) returns (current: Option<Key>)
    ensures current == LastActive(Table, width)
    ensures current == BreakpointOf(width)
  {
    current := None;
    var i := 0;
    while i < |Table|
      invariant 0 <= i <= |Table|
      invariant current == LastActive(Table[..i], width)
    {
      assert Table[..i + 1][..i] == Table[..i];
      if Active(Table[i], width) {
        current := Some(Table[i].key);
      }
      i := i + 1;
    }
    assert Table[..i] == Table;
    LastActiveIsBreakpoint(width);
  }

  /** A breakpoint for a phone-sized screen. */
  predicate IsMobileKey(k: Option<Key>) {
    k == Some(XS) || k == Some(SM)
  }

  /** The navigator's values as read; a field the browser does not offer is `None`. */
  datatype Navigator = Navigator(hardwareConcurrency: Option<int>, deviceMemory: Option<real>, effectiveType: Option<string>)

  /** The values the score is computed from, after falling back on a missing or falsy field. */
  datatype Performance = Performance(cores: int, memory: real, connection: string)

  /** A missing or zero core count counts as 2. */
  function CoresOf(v: Option<int>): (c: int)
    ensures v.None? || v.value == 0 ==> c == 2
    ensures v.Some? && v.value != 0 ==> c == v.value
  {
    if v.None? || v.value == 0 then 2 else v.value
  }

  /** A missing or zero memory size counts as 4. */
  function MemoryOf(v: Option<real>): (m: real)
    ensures v.None? || v.value == 0.0 ==> m == 4.0
    ensures v.Some? && v.value != 0.0 ==> m == v.value
  {
    if v.None? || v.value == 0.0 then 4.0 else v.value
  }

  /** A missing or empty connection type counts as "4g". */
  function ConnectionOf(v: Option<string>): (s: string)
    ensures v.None? || v.value == "" ==> s == "4g"
    ensures v.Some? && v.value != "" ==> s == v.value
  {
    if v.None? || v.value == "" then "4g" else v.value
  }

  function PerformanceOf(n: Navigator): Performance {
    Performance(CoresOf(n.hardwareConcurrency), MemoryOf(n.deviceMemory), ConnectionOf(n.effectiveType))
  }

  /** Points for the core count. */
  function CoresPoints(cores: int): (p: int)
    ensures p == 0 || p == 15 || p == 25
    ensures p == 25 <==> cores >= 4
    ensures p == 0 <==> cores < 2
  {
    if cores >= 4 then 25 else if cores >= 2 then 15 else 0
  }

  /** Points for the memory size. */
  function MemoryPoints(memory: real): (p: int)
    ensures p == 0 || p == 15 || p == 25
    ensures p == 25 <==> memory >= 8.0
    ensures p == 0 <==> memory < 4.0
  {
    if memory >= 8.0 then 25 else if memory >= 4.0 then 15 else 0
  }

  /** Points for the connection type. */
  function ConnectionPoints(connection: string): (p: int)
    ensures p == 0 || p == 15 || p == 25
    ensures p == 25 <==> connection == "4g"
    ensures p == 15 <==> connection == "3g"
  {
    if connection == "4g" then 25 else if connection == "3g" then 15 else 0
  }

  /** Points for the viewport width; even the narrowest gets some. */
  function WidthPoints(width: int): (p: int)
    ensures p == 10 || p == 15 || p == 25
    ensures p == 25 <==> width >= 1024
    ensures p == 10 <==> width < 768
  {
    if width >= 1024 then 25 else if width >= 768 then 15 else 10
  }

  /** The score as a sum of the four parts. */
  function Score(p: Performance, width: int): (s: int)
    ensures 10 <= s <= 100
  {
    CoresPoints(p.cores) + MemoryPoints(p.memory) + ConnectionPoints(p.connection) + WidthPoints(width)
  }

  /** The report's running total, added to one part at a time. */
  method DeviceScore(p: Performance, width: int) returns (deviceScore: int)
    ensures deviceScore == Score(p, width)
    ensures 10 <= deviceScore <= 100
  {
    deviceScore := 0;
    if p.cores >= 4 {
      deviceScore := deviceScore + 25;
    } else if p.cores >= 2 {
      deviceScore := deviceScore + 15;
    }
    if p.memory >= 8.0 {
      deviceScore := deviceScore + 25;
    } else if p.memory >= 4.0 {
      deviceScore := deviceScore + 15;
    }
    if p.connection == "4g" {
      deviceScore := deviceScore + 25;
    } else if p.connection == "3g" {
      deviceScore := deviceScore + 15;
    }
    deviceScore := deviceScore + if width >= 1024 then 25 else if width >= 768 then 15 else 10;
  }

  /** A device at least as strong on every count never scores lower. */
  lemma ScoreMonotone(p: Performance, q: Performance, w: int, v: int)
    requires p.cores <= q.cores && p.memory <= q.memory && w <= v
    requires p.connection == q.connection
    ensures Score(p, w) <= Score(q, v)
  {
  }

  /** With every navigator field missing, the defaults earn 55 points before the width, so such a device
      never scores below 65 and never gets the performance advice. */
  lemma MissingFieldsScore(width: int)
    ensures Score(PerformanceOf(Navigator(None, None, None)), width) == 55 + WidthPoints(width)
    ensures Score(PerformanceOf(Navigator(None, None, None)), width) >= 65
  {
    assert ConnectionOf(None) == "4g";
  }

  datatype Status = Excellent | Good | Fair | Poor

  /** The label of a score, by the thresholds 80, 60 and 40. */
  function StatusOf(score: int): (s: Status)
    ensures s == Excellent <==> score >= 80
    ensures s == Good <==> 60 <= score < 80
    ensures s == Fair <==> 40 <= score < 60
    ensures s == Poor <==> score < 40
  {
    if score >= 80 then Excellent else if score >= 60 then Good else if score >= 40 then Fair else Poor
  }

  datatype Advice = MobileAdvice | TouchAdvice | PerformanceAdvice

  /** The advice sections the report prints, in order. */
  function Recommendations(current: Option<Key>, hasTouch: bool, score: int): (r: seq<Advice>)
    ensures MobileAdvice in r <==> IsMobileKey(current)
    ensures TouchAdvice in r <==> hasTouch
    ensures PerformanceAdvice in r <==> score < 60
    ensures forall i, j :: 0 <= i < j < |r| ==> r[i] != r[j]
  {
    (if IsMobileKey(current) then [MobileAdvice] else [])
    + (if hasTouch then [TouchAdvice] else [])
    + (if score < 60 then [PerformanceAdvice] else [])
  }

  /** The mobile advice appears exactly for widths from 0 below 768, the same threshold that marks
      a screen as mobile elsewhere on the site. */
  lemma MobileAdviceByWidth(width: int, hasTouch: bool, score: int)
    ensures MobileAdvice in Recommendations(BreakpointOf(width), hasTouch, score) <==> 0 <= width < 768
  {
  }

  /** For widths from 0 up, the report advises on mobile layout exactly where the skills and about panels
      switch to their mobile speeds. */
  lemma MobileAdviceMatchesPanels(width: int, hasTouch: bool, score: int)
    requires width >= 0
    ensures MobileAdvice in Recommendations(BreakpointOf(width), hasTouch, score) <==> Skills.IsMobile(width)
  {
    MobileAdviceByWidth(width, hasTouch, score);
  }
}
