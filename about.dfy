/** The typewriter reveal of the profile text in the about section. */
module About {

  /** Milliseconds between two revealed characters: twice as fast on a small screen. */
  function Speed(isMobile: bool): (ms: nat)
    ensures ms == 10 || ms == 20
    ensures isMobile <==> ms == 10
  {
    if isMobile then 10 else 20
  }

  /** The typewriter's state: the text shown, the interval's counter, and whether the interval is still set. */
  datatype Reveal = Reveal(shown: string, index: nat, running: bool)

  /** The state on mount: nothing shown, counter 0, interval set. */
  const Mounted: Reveal := Reveal("", 0, true)

  /** What every reachable state keeps true about `text`: the text shown is a prefix of it, and it is the
      first `index` characters once a character has been revealed; a stopped typewriter shows all of it. */
  ghost predicate Consistent(text: string, r: Reveal) {
    && r.shown <= text
    && r.index <= |text|
    && (r.index > 0 ==> r.shown == text[..r.index])
    && (!r.running ==> r.index == |text| && r.shown == text)
  }

  /** Re-running the effect: a new interval with its counter at 0; the text shown stays until the next tick. */
  function Restarted(text: string, r: Reveal): (n: Reveal)
    ensures n.shown == r.shown && n.index == 0 && n.running
    ensures Consistent(text, r) ==> Consistent(text, n)
  {
    r.(index := 0, running := true)
  }

  /** One firing of the interval. */
  function Step(text: string, r: Reveal): (n: Reveal)
    ensures Consistent(text, r) ==> Consistent(text, n)
    ensures r.running && r.index < |text| ==> n == Reveal(text[..r.index + 1], r.index + 1, true)
    ensures Consistent(text, r) && r.running && r.index == |text| ==> !n.running && n.shown == text
    ensures !r.running ==> n == r
  {
    if !r.running then r
    else if r.index < |text| then Reveal(text[..r.index + 1], r.index + 1, true)
    else r.(running := false)
  }

  /** `k` firings of the interval. */
  function Steps(text: string, r: Reveal, k: nat): Reveal
    decreases k
  {
    if k == 0 then r else Steps(text, Step(text, r), k - 1)
  }

  /** A running typewriter with `k` characters still to go reveals them one per tick. */
  lemma {:induction false} Revealing(text: string, r: Reveal, k: nat)
    requires Consistent(text, r) && r.running && r.index + k <= |text|
    ensures Steps(text, r, k).running && Steps(text, r, k).index == r.index + k
    ensures k > 0 ==> Steps(text, r, k).shown == text[..r.index + k]
    decreases k
  {
    if k > 0 {
      Revealing(text, Step(text, r), k - 1);
    }
  }

  /** From any consistent state, a restart followed by one tick per character and one more shows the whole
      text and clears the interval. */
  lemma RevealsAll(text: string, r: Reveal)
    requires Consistent(text, r)
    ensures Steps(text, Restarted(text, r), |text| + 1) == Reveal(text, |text|, false)
  {
    var s := Restarted(text, r);
    Revealing(text, s, |text|);
    var t := Steps(text, s, |text|);
    StepsSplit(text, s, |text|);
    if |text| == 0 {
      assert t.shown == text;
    }
  }

  /** `k + 1` firings are `k` firings followed by one. */
  lemma {:induction false} StepsSplit(text: string, r: Reveal, k: nat)
    ensures Steps(text, r, k + 1) == Step(text, Steps(text, r, k))
    decreases k
  {
    if k > 0 {
      StepsSplit(text, Step(text, r), k - 1);
    }
  }

  /** A stopped typewriter never changes again. */
  lemma {:induction false} StoppedStays(text: string, r: Reveal, k: nat)
    requires !r.running
    ensures Steps(text, r, k) == r
    decreases k
  {
    if k > 0 {
      StoppedStays(text, Step(text, r), k - 1);
    }
  }

  /** The about section's typewriter: the text, the text shown, the interval's counter and period. */
  class Typewriter {
    const text: string
    var displayText: string
    var index: nat
    var running: bool
    var interval: nat

    function State(): Reveal
      reads this
    {
      Reveal(displayText, index, running)
    }

    ghost predicate Valid()
      reads this
    {
      Consistent(text, State())
    }

    /** Mounting shows nothing and starts the interval at the speed for the screen. */
    constructor(fullText: string, isMobile: bool)
      ensures text == fullText && State() == Mounted && interval == Speed(isMobile)
      ensures Valid()
    {
      text := fullText;
      displayText := "";
      index := 0;
      running := true;
      interval := Speed(isMobile);
    }

    /** The effect re-runs when the screen size class changes. */
    method Restart(isMobile: bool)
      requires Valid()
      modifies this
      ensures State() == Restarted(text, old(State())) && interval == Speed(isMobile)
      ensures Valid()
    {
      index := 0;
      running := true;
      interval := Speed(isMobile);
    }

    /** One firing of the interval: reveal one more character, or clear the interval at the end. */
    method Tick()
      requires Valid()
      modifies this
      ensures State() == Step(text, old(State())) && interval == old(interval)
      ensures Valid()
    {
      if running {
        if index < |text| {
          displayText := text[..index + 1];
          index := index + 1;
        } else {
          running := false;
        }
      }
    }
  }

}
