/**
 * The skills panel: a scan bar that fills on a timer before the cards
 * appear, cards that open and close on click, and the status badge of
 * each certification.
 */
module Skills {
  import opened Options

  /** The scan animation: progress in percent, whether the cards show, whether the timer still runs. */
  datatype Scan = Scan(progress: int, showSkills: bool, running: bool)

  /** The state the panel starts in. */
  const InitialScan := Scan(0, false, true)

  /** How far one tick moves the bar: twice as far on mobile. */
  function ScanStep(isMobile: bool): (d: int)
    ensures d > 0 && 100 % d == 0
  {
    if isMobile then 4 else 2
  }

  /** The tick period in milliseconds: twice as fast on mobile. */
  function ScanInterval(isMobile: bool): (ms: int)
    ensures ms == 25 || ms == 50
    ensures isMobile <==> ms == 25
  {
    if isMobile then 25 else 50
  }

  /** `window.innerWidth < 768`. */
  predicate IsMobile(width: int) {
    width < 768
  }

  /**
   * One timer tick. A bar already at (or past) 100 is set to exactly 100,
   * the cards are shown and the timer stops; otherwise the bar moves by
   * one step. A stopped timer does not tick.
   */
  function ScanTick(s: Scan, isMobile: bool): (r: Scan)
    ensures !s.running ==> r == s
    ensures s.running && s.progress >= 100 ==> r == Scan(100, true, false)
    ensures s.running && s.progress < 100 ==> r == s.(progress := s.progress + ScanStep(isMobile))
  {
    if !s.running then s
    else if s.progress >= 100 then Scan(100, true, false)
    else s.(progress := s.progress + ScanStep(isMobile))
  }

  /** `k` ticks with a fixed mobile flag. */
  function ScanRun(s: Scan, isMobile: bool, k: nat): Scan
    decreases k
  {
    if k == 0 then s else ScanRun(ScanTick(s, isMobile), isMobile, k - 1)
  }

  /**
   * From the start, with the mobile flag fixed: after `k` ticks the bar
   * stands at `min(k * step, 100)`, so it reaches exactly 100 and never
   * passes it; the timer runs and the cards stay hidden for the first
   * `100 / step + 1` ticks, and from then on the timer is stopped with the
   * cards shown.
   */
  lemma {:induction false} ScanRunFromStart(isMobile: bool, k: nat)
    ensures var d := ScanStep(isMobile); var s := ScanRun(InitialScan, isMobile, k);
      && s.progress == (if k * d < 100 then k * d else 100)
      && (s.running <==> k <= 100 / d)
      && (s.showSkills <==> k > 100 / d)
  {
    var d := ScanStep(isMobile);
    if k > 0 {
      ScanRunFromStart(isMobile, k - 1);
      ScanRunSplit(InitialScan, isMobile, k - 1);
      var s := ScanRun(InitialScan, isMobile, k - 1);
      assert ScanRun(InitialScan, isMobile, k) == ScanTick(s, isMobile);
      assert (k - 1) * d >= 100 <==> k - 1 >= 100 / d;
    }
  }

  /** `k + 1` ticks are `k` ticks and then one more. */
  lemma {:induction false} ScanRunSplit(s: Scan, isMobile: bool, k: nat)
    decreases k
    ensures ScanRun(s, isMobile, k + 1) == ScanTick(ScanRun(s, isMobile, k), isMobile)
  {
    if k > 0 {
      ScanRunSplit(ScanTick(s, isMobile), isMobile, k - 1);
    }
  }

  /**
   * When the mobile flag turns on while the bar stands at 98, the next
   * tick shows 102%; the bar is brought back to 100 on the tick after.
   */
  lemma ScanOvershootOnFlagChange()
    ensures ScanTick(Scan(98, false, true), true) == Scan(102, false, true)
    ensures ScanTick(Scan(102, false, true), true) == Scan(100, true, false)
  {
  }

  /** A card click: clicking the open card closes it, clicking any other card opens that one. */
  function Toggle(selected: Option<nat>, k: nat): (r: Option<nat>)
    ensures r == None <==> selected == Some(k)
    ensures r != None ==> r == Some(k)
  {
    if selected == Some(k) then None else Some(k)
  }

  /** Clicking the same card twice restores an open or closed card, and closes any other. */
  lemma ToggleTwice(selected: Option<nat>, k: nat)
    ensures Toggle(Toggle(selected, k), k) == (if selected == Some(k) then Some(k) else None)
  {
  }

  /** The colour classes of a certification's status: text colour, then background colour. */
  function StatusColor(status: string): (c: string)
    ensures c in ["text-green-400 bg-green-400", "text-yellow-400 bg-yellow-400",
                  "text-blue-400 bg-blue-400", "text-gray-400 bg-gray-400"]
  {
    match status
    case "completed" => "text-green-400 bg-green-400"
    case "in-progress" => "text-yellow-400 bg-yellow-400"
    case "planned" => "text-blue-400 bg-blue-400"
    case _ => "text-gray-400 bg-gray-400"
  }

  /** The badge label of a certification's status. */
  function StatusText(status: string): (t: string)
    ensures status == "completed" ==> t == "COMPLETED"
    ensures status == "in-progress" ==> t == "IN PROGRESS"
    ensures status == "planned" ==> t == "PLANNED"
    ensures status !in {"completed", "in-progress", "planned"} ==> t == "UNKNOWN"
  {
    match status
    case "completed" => "COMPLETED"
    case "in-progress" => "IN PROGRESS"
    case "planned" => "PLANNED"
    case _ => "UNKNOWN"
  }

  /** `s.split(sep)`: the pieces between separators, in order. */
  function Split(s: string, sep: char): (r: seq<string>)
    ensures |r| >= 1
    ensures forall k :: 0 <= k < |r| ==> sep !in r[k]
  {
    if |s| == 0 then [""]
    else
      var rest := Split(s[1..], sep);
      if s[0] == sep then [""] + rest
      else [[s[0]] + rest[0]] + rest[1..]
  }

  /** The pieces glued back together with the separator between them. */
  function Join(pieces: seq<string>, sep: char): string
    requires |pieces| >= 1
  {
    if |pieces| == 1 then pieces[0] else pieces[0] + [sep] + Join(pieces[1..], sep)
  }

  /** Joining the pieces with the separator gives back the input. */
  lemma {:induction false} SplitJoin(s: string, sep: char)
    ensures Join(Split(s, sep), sep) == s
    decreases |s|
  {
    if |s| > 0 {
      var rest := Split(s[1..], sep);
      SplitJoin(s[1..], sep);
      if s[0] == sep {
        assert ([""] + rest)[1..] == rest;
      } else {
        var r := [[s[0]] + rest[0]] + rest[1..];
        if |rest| > 1 {
          assert r[1..] == rest[1..];
        }
        assert [s[0]] + s[1..] == s;
      }
    }
  }

  /** The colour a status is shown in. */
  function Hue(status: string): string {
    match status
    case "completed" => "green-400"
    case "in-progress" => "yellow-400"
    case "planned" => "blue-400"
    case _ => "gray-400"
  }

  /** The class the badge uses: `getStatusColor(status).split(" ")[1]`. */
  function BadgeClass(status: string): (b: string)
    ensures b == "bg-" + Hue(status)
  {
    var parts := Split(StatusColor(status), ' ');
    ColorIsHue(status);
    BadgeOfHue(Hue(status));
    if |parts| > 1 then parts[1] else ""
  }

  /** Two space-free words with a space between split into those two words. */
  lemma SplitTwoWords(a: string, b: string)
    requires ' ' !in a && ' ' !in b
    ensures Split(a + " " + b, ' ') == [a, b]
  {
    SplitSpaceThen(b);
    SplitPrefix(a, " " + b);
    assert a + " " + b == a + (" " + b);
    assert a + "" == a;
  }

  /** A separator followed by a word splits into an empty piece and the word. */
  lemma SplitSpaceThen(b: string)
    requires ' ' !in b
    ensures Split(" " + b, ' ') == ["", b]
  {
    SplitWord(b);
    assert (" " + b)[1..] == b;
  }

  /** A word with no separator is one piece. */
  lemma {:induction false} SplitWord(b: string)
    requires ' ' !in b
    ensures Split(b, ' ') == [b]
  {
    if |b| > 0 {
      SplitWord(b[1..]);
      assert [b[0]] + b[1..] == b;
    }
  }

  /** A separator-free prefix joins the first piece of what follows. */
  lemma {:induction false} SplitPrefix(a: string, t: string)
    requires ' ' !in a
    ensures var r := Split(t, ' '); Split(a + t, ' ') == [a + r[0]] + r[1..]
  {
    var r := Split(t, ' ');
    if |a| > 0 {
      SplitPrefix(a[1..], t);
      var rest := Split(a[1..] + t, ' ');
      assert (a + t)[0] == a[0] && (a + t)[1..] == a[1..] + t;
      assert rest[0] == a[1..] + r[0] && rest[1..] == r[1..];
      assert [a[0]] + (a[1..] + r[0]) == a + r[0];
    } else {
      assert a + t == t && a + r[0] == r[0];
      assert [r[0]] + r[1..] == r;
    }
  }

  /** The text class and the background class of colour `hue`, a space between them. */
  function Classes(hue: string): string {
    ("text-" + hue) + " " + ("bg-" + hue)
  }

  /** `Classes(hue)` splits into the text class and the background class. */
  lemma BadgeOfHue(hue: string)
    requires ' ' !in hue
    ensures Split(Classes(hue), ' ') == ["text-" + hue, "bg-" + hue]
  {
    assert ' ' !in "text-" + hue && ' ' !in "bg-" + hue;
    SplitTwoWords("text-" + hue, "bg-" + hue);
  }

  /** A status's colour classes are `Classes` of its colour. */
  lemma ColorIsHue(status: string)
    ensures StatusColor(status) == Classes(Hue(status)) && ' ' !in Hue(status)
  {
    if status == "completed" {
      GreenClasses();
    } else if status == "in-progress" {
      YellowClasses();
    } else if status == "planned" {
      BlueClasses();
    } else {
      GrayClasses();
    }
  }

  lemma GreenClasses()
    ensures "text-green-400 bg-green-400" == Classes("green-400") && ' ' !in "green-400"
  {
  }

  lemma YellowClasses()
    ensures "text-yellow-400 bg-yellow-400" == Classes("yellow-400") && ' ' !in "yellow-400"
  {
  }

  lemma BlueClasses()
    ensures "text-blue-400 bg-blue-400" == Classes("blue-400") && ' ' !in "blue-400"
  {
  }

  lemma GrayClasses()
    ensures "text-gray-400 bg-gray-400" == Classes("gray-400") && ' ' !in "gray-400"
  {
  }

  /** The panel's interactive state. */
  class SkillsPanel {
    var scan: Scan
    var selectedSkill: Option<nat>
    var selectedCert: Option<nat>

    constructor ()
      ensures scan == InitialScan && selectedSkill == None && selectedCert == None
    {
      scan := InitialScan;
      selectedSkill := None;
      selectedCert := None;
    }

    /** One tick of the scan timer. */
    method Tick(isMobile: bool)
      modifies this
      ensures scan == ScanTick(old(scan), isMobile)
      ensures selectedSkill == old(selectedSkill) && selectedCert == old(selectedCert)
    {
      if scan.running {
        if scan.progress >= 100 {
          scan := Scan(100, true, false);
        } else {
          scan := scan.(progress := scan.progress + (if isMobile then 4 else 2));
        }
      }
    }

    /** A click on skill card `k`. */
    method ClickSkill(k: nat)
      modifies this
      ensures selectedSkill == Toggle(old(selectedSkill), k)
      ensures scan == old(scan) && selectedCert == old(selectedCert)
    {
      selectedSkill := if selectedSkill == Some(k) then None else Some(k);
    }

    /** A click on certification card `k`. */
    method ClickCert(k: nat)
      modifies this
      ensures selectedCert == Toggle(old(selectedCert), k)
      ensures scan == old(scan) && selectedSkill == old(selectedSkill)
    {
      selectedCert := if selectedCert == Some(k) then None else Some(k);
    }
  }
}
