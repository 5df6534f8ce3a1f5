/**
 * The page shell's command dispatcher: a transition over the pair
 * (current section, terminal history). A command is lower-cased and
 * trimmed, then looked up in a fixed vocabulary; a match may switch the
 * visible section, appends a fixed block of lines that starts by echoing
 * the raw command, or, for "clear", empties the history.
 */
module Portfolio {
  import opened Options
  import Text

  /** The five panels the page can show. */
  predicate IsSection(s: string) {
    s == "home" || s == "about" || s == "projects" || s == "skills" || s == "contact"
  }

  /** The lines the terminal shows when the page loads. */
  const InitialHistory: seq<string> := [
    "TACTICAL NETWORK INTERFACE INITIALIZED",
    "Portfolio Systems: ACTIVE",
    "Interactive Interface: READY",
    "Welcome back, Operative.",
    "",
    "Type \"sitrep\" for mission status."
  ]

  /** `command.toLowerCase().trim()`. */
  function Normalize(command: string): (r: string)
    ensures r == [] || (!Text.IsSpace(r[0]) && !Text.IsSpace(r[|r| - 1]))
    ensures forall k :: 0 <= k < |r| ==> !Text.IsUpper(r[k])
  {
    var lower := Text.ToLower(command);
    Text.TrimNoUpper(lower);
    Text.Trim(lower)
  }

  /** The commands the dispatcher has a case for. */
  predicate Recognised(cmd: string) {
    cmd in {"sitrep", "help", "profile", "missions", "loadout", "comms", "linkedin",
            "github", "instagram", "scan", "clear", "recon", "base", "home"}
  }

  /** The cases of the dispatcher's switch, one per command word, and the default. */
  datatype Command =
    | Sitrep | Help | Profile | Missions | Loadout | Comms | LinkedIn | GitHub | Instagram
    | Scan | Clear | Recon | Base | Home | Unknown

  /** The word each case matches. */
  function Keyword(c: Command): string
    requires c != Unknown
  {
    match c
    case Sitrep => "sitrep"
    case Help => "help"
    case Profile => "profile"
    case Missions => "missions"
    case Loadout => "loadout"
    case Comms => "comms"
    case LinkedIn => "linkedin"
    case GitHub => "github"
    case Instagram => "instagram"
    case Scan => "scan"
    case Clear => "clear"
    case Recon => "recon"
    case Base => "base"
    case Home => "home"
  }

  /** Which case of the switch a normalised command takes: its own word's case, or the default. */
  function Parse(cmd: string): Command {
    match cmd
    case "sitrep" => Sitrep
    case "help" => Help
    case "profile" => Profile
    case "missions" => Missions
    case "loadout" => Loadout
    case "comms" => Comms
    case "linkedin" => LinkedIn
    case "github" => GitHub
    case "instagram" => Instagram
    case "scan" => Scan
    case "clear" => Clear
    case "recon" => Recon
    case "base" => Base
    case "home" => Home
    case _ => Unknown
  }

  /** The default case is taken exactly by the words without a case, and every other case by its own word. */
  lemma ParseCases(cmd: string)
    ensures Parse(cmd) == Unknown <==> !Recognised(cmd)
    ensures Parse(cmd) != Unknown ==> Keyword(Parse(cmd)) == cmd
  {
  }

  /** Every case is reached by its own word. */
  lemma ParseKeyword(c: Command)
    requires c != Unknown
    ensures Parse(Keyword(c)) == c
  {
  }

  /** The section a case switches to; cases without a section change give None. */
  function Destination(c: Command): (r: Option<string>)
    ensures r.Some? ==> IsSection(r.value)
  {
    match c
    case Profile => Some("about")
    case Missions => Some("projects")
    case Loadout => Some("skills")
    case Comms => Some("contact")
    case Base => Some("home")
    case Home => Some("home")
    case _ => None
  }

  /** Which cases lead to which section, in both directions. */
  lemma DestinationCases(c: Command)
    ensures Destination(c) == Some("about") <==> c == Profile
    ensures Destination(c) == Some("projects") <==> c == Missions
    ensures Destination(c) == Some("skills") <==> c == Loadout
    ensures Destination(c) == Some("contact") <==> c == Comms
    ensures Destination(c) == Some("home") <==> c == Base || c == Home
  {
  }

  /** The browser tab a case opens, if any. */
  function ExternalLink(c: Command): (r: Option<string>)
    ensures r.Some? <==> c == LinkedIn || c == GitHub || c == Instagram
  {
    match c
    case LinkedIn => Some("https://linkedin.com/in/imanpal-singh-170030306/")
    case GitHub => Some("https://github.com/iman158")
    case Instagram => Some("https://instagram.com/imanpal_singh")
    case _ => None
  }

  /** The text shared by "sitrep" and "help". */
  const CommandList: seq<string> := [
    "",
    "TACTICAL COMMAND INTERFACE",
    "═══════════════════════════════════",
    "  profile    - Operative dossier",
    "  missions   - Operation history",
    "  loadout    - Equipment & skills",
    "  comms      - Communication channel",
    "  linkedin   - Open LinkedIn profile",
    "  github     - Open GitHub repository",
    "  instagram  - Open Instagram profile",
    "  scan       - System scan",
    "  clear      - Clear terminal",
    "  recon      - Run reconnaissance scan",
    "",
    "Stay sharp, Operative."
  ]

  /** The fixed lines each navigation, link and status case prints after the echo. */
  const ProfileLines: seq<string> := ["Accessing operative file...", "CLASSIFIED PERSONNEL RECORD", ""]
  const MissionsLines: seq<string> := ["Loading mission database...", "Retrieving operation records...", ""]
  const LoadoutLines: seq<string> := ["Analyzing tactical capabilities...", "Equipment assessment in progress...", ""]
  const CommsLines: seq<string> := ["Opening secure communication channel...", "Encryption protocols active...", ""]
  const LinkedInLines: seq<string> :=
    ["Opening secure LinkedIn connection...", "Redirecting to professional network...",
     "Connection established.", ""]
  const GitHubLines: seq<string> :=
    ["Accessing GitHub repository...", "Loading security tools and research...",
     "Repository access granted.", ""]
  const InstagramLines: seq<string> :=
    ["Opening Instagram profile...", "Loading security content and updates...",
     "Social media connection established.", ""]
  const ScanLines: seq<string> := ["Initiating system scan...", "Scanning portfolio components...", "All systems operational", ""]
  const ReconLines: seq<string> :=
    ["Initiating reconnaissance protocol...",
     "Scanning target systems... [████████████████████] 100%", "Analysis complete",
     "No vulnerabilities detected in perimeter.", "Target maintains strong defensive posture.", ""]
  const HomeLines: seq<string> := ["Returning to command center...", "Standing by for orders.", ""]

  /**
   * The lines a case prints after echoing the command (every case except
   * "clear"). Only the default case mentions the raw input: it prints four
   * lines, the first naming that input.
   */
  function Block(c: Command, command: string): (lines: seq<string>)
    requires c != Clear
    ensures |lines| >= 3
    ensures c == Unknown ==> |lines| == 4 && lines[0] == "Unknown command: " + command
  {
    match c
    case Sitrep => CommandList
    case Help => CommandList
    case Profile => ProfileLines
    case Missions => MissionsLines
    case Loadout => LoadoutLines
    case Comms => CommsLines
    case LinkedIn => LinkedInLines
    case GitHub => GitHubLines
    case Instagram => InstagramLines
    case Scan => ScanLines
    case Recon => ReconLines
    case Base => HomeLines
    case Home => HomeLines
    case Unknown =>
      ["Unknown command: " + command, "Type \"sitrep\" for available commands.",
       "Maintain operational security.", ""]
  }

  /** What a case appends to the history: the echo `"> " + command`, then its block. */
  function Reply(c: Command, command: string): (lines: seq<string>)
    requires c != Clear
    ensures |lines| >= 4 && lines[0] == "> " + command && lines[1..] == Block(c, command)
    ensures c == Unknown ==> |lines| == 5 && lines[1] == "Unknown command: " + command
  {
    ["> " + command] + Block(c, command)
  }

  /** The heading shown above the panel: total over every string. */
  function SectionTitle(section: string): (title: string)
    ensures section == "home" ==> title == "TACTICAL OPERATIONS CENTER"
    ensures section == "about" ==> title == "OPERATIVE DOSSIER"
    ensures section == "projects" ==> title == "MISSION ARCHIVE"
    ensures section == "skills" ==> title == "EQUIPMENT LOADOUT"
    ensures section == "contact" ==> title == "TACTICAL COMMUNICATIONS"
    ensures !IsSection(section) ==> title == "TACTICAL OPERATIONS CENTER"
  {
    match section
    case "home" => "TACTICAL OPERATIONS CENTER"
    case "about" => "OPERATIVE DOSSIER"
    case "projects" => "MISSION ARCHIVE"
    case "skills" => "EQUIPMENT LOADOUT"
    case "contact" => "TACTICAL COMMUNICATIONS"
    case _ => "TACTICAL OPERATIONS CENTER"
  }

  /** What the dispatcher reads and writes: the visible section and the terminal history. */
  datatype Screen = Screen(section: string, history: seq<string>)

  /**
   * The dispatcher's transition for one command. "clear" empties the
   * history and keeps the section. Every other command keeps the old
   * history as a prefix, appends lines starting with the echo of the raw
   * command, and changes the section only when the command names one.
   */
  function Dispatch(s: Screen, command: string): (r: Screen)
    ensures IsSection(s.section) ==> IsSection(r.section)
    ensures Destination(Parse(Normalize(command))).None? ==> r.section == s.section
    ensures Destination(Parse(Normalize(command))).Some? ==> r.section == Destination(Parse(Normalize(command))).value
    ensures Parse(Normalize(command)) == Clear <==> r.history == [] && r.section == s.section
    ensures Parse(Normalize(command)) != Clear ==>
      && |r.history| > |s.history| && r.history[..|s.history|] == s.history
      && r.history[|s.history|] == "> " + command
    ensures Parse(Normalize(command)) != Clear ==> r.history == s.history + Reply(Parse(Normalize(command)), command)
    ensures !Recognised(Normalize(command)) ==>
      && |r.history| == |s.history| + 5
      && r.history[|s.history| + 1] == "Unknown command: " + command
  {
    var c := Parse(Normalize(command));
    ParseCases(Normalize(command));
    var r :=
      if c == Clear then
        Screen(s.section, [])
      else
        var section := if Destination(c).Some? then Destination(c).value else s.section;
        Screen(section, s.history + Reply(c, command));
    CaseFacts(s, c, command, r);
    r
  }

  /** What the case `c` of the switch does to the screen `s`. */
  lemma CaseFacts(s: Screen, c: Command, command: string, r: Screen)
    requires c == Clear ==> r == Screen(s.section, [])
    requires c != Clear ==>
      r == Screen(if Destination(c).Some? then Destination(c).value else s.section, s.history + Reply(c, command))
    ensures IsSection(s.section) ==> IsSection(r.section)
    ensures Destination(c).None? ==> r.section == s.section
    ensures Destination(c).Some? ==> r.section == Destination(c).value
    ensures c == Clear <==> r.history == [] && r.section == s.section
    ensures c != Clear ==>
      && |r.history| > |s.history| && r.history[..|s.history|] == s.history
      && r.history[|s.history|] == "> " + command
    ensures c != Clear ==> r.history == s.history + Reply(c, command)
    ensures c == Unknown ==>
      && |r.history| == |s.history| + 5
      && r.history[|s.history| + 1] == "Unknown command: " + command
  {
    if c != Clear {
      var h := s.history + Reply(c, command);
      assert h[..|s.history|] == s.history;
      assert h[|s.history|] == Reply(c, command)[0];
      if c == Unknown {
        assert h[|s.history| + 1] == Reply(c, command)[1];
      }
    }
  }

  /** The page's state: which panel is visible and what the terminal shows. */
  class Page {
    var currentSection: string
    var terminalHistory: seq<string>

    ghost predicate Valid()
      reads this
    {
      IsSection(currentSection)
    }

    ghost function View(): Screen
      reads this
    {
      Screen(currentSection, terminalHistory)
    }

    constructor ()
      ensures Valid()
      ensures currentSection == "home" && terminalHistory == InitialHistory
    {
      currentSection := "home";
      terminalHistory := InitialHistory;
    }

    /**
     * `handleCommand`: one dispatcher transition; `url` is the tab the
     * command opens, if any.
     */
    method HandleCommand(command: string) returns (url: Option<string>)
      requires Valid()
      modifies this
      ensures Valid()
      ensures View() == Dispatch(old(View()), command)
      ensures url == ExternalLink(Parse(Normalize(command)))
    {
      var c := Parse(Normalize(command));
      if c == Clear {
        terminalHistory := [];
      } else {
        var destination := Destination(c);
        if destination.Some? {
          currentSection := destination.value;
        }
        terminalHistory := terminalHistory + Reply(c, command);
      }
      url := ExternalLink(c);
    }
  }

  lemma LowerProfile()
    ensures Text.ToLower("  Profile ") == "  profile "
  {
    assert Text.LowerChar('P') == 'p';
  }

  lemma TrimProfile()
    ensures Text.Trim("  profile ") == "profile"
  {
    assert "  profile " == "  " + "profile" + " ";
    Text.TrimPadded("  ", "profile", " ");
  }

  /** Case and surrounding white space do not matter: "  Profile " takes the "profile" case. */
  lemma ProfileNormalises()
    ensures Normalize("  Profile ") == "profile"
    ensures Destination(Parse(Normalize("  Profile "))) == Some("about")
  {
    NormaliseProfile();
    ParseProfile();
  }

  lemma NormaliseProfile()
    ensures Normalize("  Profile ") == "profile"
  {
    LowerProfile();
    TrimProfile();
  }

  lemma ParseProfile()
    ensures Parse("profile") == Profile
  {
  }

  /** Typing "  Profile " on any screen switches to the about panel. */
  lemma ProfileSwitchesToAbout(s: Screen)
    ensures Dispatch(s, "  Profile ").section == "about"
  {
    ProfileNormalises();
  }

  /** "sitrep" and "help" print the same block after the echo. */
  lemma SitrepIsHelp(a: string, b: string)
    ensures Reply(Sitrep, a)[1..] == Reply(Help, b)[1..]
  {
  }

  /** Outside the default case, the raw input shows up only in the echo line. */
  lemma BlockIgnoresRawInput(c: Command, a: string, b: string)
    requires c != Clear && c != Unknown
    ensures Block(c, a) == Block(c, b)
  {
  }

  /** Normalising is idempotent, so a normalised command dispatches as itself. */
  lemma NormalizeIdempotent(command: string)
    ensures Normalize(Normalize(command)) == Normalize(command)
  {
    Text.LowerTrimCommute(Text.ToLower(command));
    Text.ToLowerIdempotent(command);
    Text.TrimIdempotent(Text.ToLower(command));
  }
}
