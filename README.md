# A verified model of the tactical-terminal portfolio's logic

The portfolio is a single-page site styled as a military terminal. This project models the parts of it that hold logic, as opposed to markup:

- **Command dispatcher** (`Portfolio`, `Text`). It works on the pair (visible section, terminal history). A typed command is lower-cased and trimmed. It is then looked up in a fixed vocabulary. The command may switch the section, append a block of lines that starts by echoing the raw command, or clear the history.
- **Terminal input line** (`Terminal`). It offers unique-prefix Tab completion over eight command words. Submitting sends the line only when it is not blank.
- **Particle canvas** (`Connections`, `CyberGrid`).
  - Its list of connections is maintained in place every frame: each connection loses one frame of life, dead ones are spliced out, and a scan then pushes a new edge for a particle, at most one each.
  - It also covers particle spawning, the bounce that keeps particles on the canvas, and the frame-rate gate.
- **Floating monitor** (`FloatingTerminal`). It keeps a rolling window of the five newest log lines and can be closed.
- **Skills panel** (`Skills`). It has a saturating scan bar, open/close toggles on the cards, and the status badge of each certification.
- **About panel** (`About`). It reveals the profile text one character per tick, like a typewriter.
- **Contact form** (`Contact`). It updates a four-field record on input and clears it after a submit that always succeeds.
- **Responsive-design report** (`Responsive`). It computes the breakpoint of the viewport, the device score, its status label and the advice sections.

How the model is built:

- State that the components update in place is a `class`. Its fields are the component's state.
- Each method that changes state ties the new state to a pure function of the old state.
- The properties are proved as lemmas about those functions and as invariants (`Valid`) the methods keep.
- Random numbers, the clock's text, viewport and navigator values, and the distance test between particles (`near`) are parameters.

## Model

| member | source | states |
|---|---|---|
| Text.LowerChar | app/page.tsx:41 | a character with no upper-case ASCII letter left; only `A`-`Z` change, each moved by 32 |
| Text.ToLower | app/page.tsx:41 | `toLowerCase` keeps the length and maps each character through `LowerChar`, so no upper-case letter is left and every other character is kept |
| Text.TrimStart | app/page.tsx:41 | the result is a suffix of the input; everything dropped is white space; it starts with a non-space |
| Text.TrimEnd | app/page.tsx:41 | the result is a prefix of the input; everything dropped is white space; it ends with a non-space |
| Text.Trim | app/page.tsx:41 | `trim` leaves no white space at either end |
| Text.TrimRemovesOnlySpace | app/page.tsx:41 | the trimmed text sits in place in the input, with only white space before and after it |
| Text.TrimStartPadded | app/page.tsx:41 | leading white space in front of a non-space is exactly what is dropped |
| Text.TrimEndPadded | app/page.tsx:41 | trailing white space after a non-space is exactly what is dropped |
| Text.TrimPadded | app/page.tsx:41 | white space of any length around text with non-space ends is all that `trim` removes |
| Text.TrimIdempotent | src/components/terminal.tsx:38 | trimming twice is trimming once |
| Text.TrimKeepsTrimmed | src/components/terminal.tsx:38 | text with non-space ends is left alone by `trim` |
| Text.ToLowerKeepsLower | src/components/terminal.tsx:48 | text with no upper-case letter is left alone by `toLowerCase` |
| Text.LowerKeepsSpace | app/page.tsx:41 | lower-casing never turns a space into a non-space or back |
| Text.TrimStartLower | app/page.tsx:41 | dropping leading space commutes with lower-casing |
| Text.TrimEndLower | app/page.tsx:41 | dropping trailing space commutes with lower-casing |
| Text.LowerTrimCommute | app/page.tsx:41 | `trim` and `toLowerCase` commute |
| Text.TrimNoUpper | app/page.tsx:41 | trimming text with no upper-case letter leaves none |
| Text.ToLowerIdempotent | app/page.tsx:41 | lower-casing twice is lower-casing once |
| Portfolio.Normalize | app/page.tsx:41 | the normalised command has no white space at either end and no upper-case letter |
| Portfolio.ParseCases | app/page.tsx:43-175 | a normalised command takes the default case exactly when it is not one of the fourteen words, and otherwise takes the case of its own word |
| Portfolio.ParseKeyword | app/page.tsx:43-175 | every case of the switch is reached by its own word |
| Portfolio.Destination | app/page.tsx:66-105 | every section a case switches to is one of the five |
| Portfolio.DestinationCases | app/page.tsx:66-105 | profile→about, missions→projects, loadout→skills, comms→contact and base/home→home, in both directions |
| Portfolio.ExternalLink | app/page.tsx:106-138 | exactly linkedin, github and instagram open a browser tab |
| Portfolio.Block | app/page.tsx:44-183 | each case prints at least three lines; the default prints four, the first of which is "Unknown command: " followed by the raw input |
| Portfolio.Reply | app/page.tsx:46-183 | the appended lines start with `"> "` plus the raw command, followed by the case's block; the default case appends five lines |
| Portfolio.SectionTitle | app/page.tsx:188-203 | each of the five sections has its fixed title, and every other string gets "TACTICAL OPERATIONS CENTER" |
| Portfolio.Dispatch | app/page.tsx:40-186 | "clear" empties the history and keeps the section, and is the only command that empties it; every other command appends exactly `Reply` of its case to the old history, echo first; a command with a destination switches to exactly that section, and one without keeps the section; the section stays one of the five; unrecognised input appends five lines, the second naming the input |
| Portfolio.CaseFacts | app/page.tsx:44-185 | what one case of the switch does to (section, history): the same facts as `Dispatch`, stated for the case `c` |
| Portfolio.Page.constructor | app/page.tsx:15-25 | the page starts on "home" with the six welcome lines |
| Portfolio.Page.HandleCommand | app/page.tsx:40-186 | one `Dispatch` transition on (section, history), plus the URL to open, if any; the section stays one of the five |
| Portfolio.ProfileNormalises | app/page.tsx:41-43 | "  Profile " normalises to "profile" and switches to the about panel |
| Portfolio.ProfileSwitchesToAbout | app/page.tsx:41-67 | whatever the screen, "  Profile " opens the about section |
| Portfolio.SitrepIsHelp | app/page.tsx:44-64 | "sitrep" and "help" append the same lines after the echo |
| Portfolio.BlockIgnoresRawInput | app/page.tsx:46-174 | outside the default case, the raw input only appears in the echo line |
| Portfolio.NormalizeIdempotent | app/page.tsx:41 | normalising twice is normalising once |
| Terminal.Filter | src/components/terminal.tsx:48 | `filter` keeps exactly the entries that start with the prefix, keeps their distinctness and never grows |
| Terminal.DistinctCardinality | src/components/terminal.tsx:47 | a list with no repeats has as many elements as its set |
| Terminal.Matches | src/components/terminal.tsx:48 | the matches are exactly the command words that start with the lower-cased input, one entry each |
| Terminal.Complete | src/components/terminal.tsx:45-51 | with exactly one candidate, the input becomes that word; with zero or several, the input is kept |
| Terminal.FilterEmptyPrefix | src/components/terminal.tsx:48 | the empty prefix keeps every entry |
| Terminal.EmptyMatchesAll | src/components/terminal.tsx:48-50 | an empty line matches all eight words, so Tab keeps it |
| Terminal.FilterC | src/components/terminal.tsx:47-48 | only "comms" and "clear" start with "c" |
| Terminal.PrefixCIsAmbiguous | src/components/terminal.tsx:48-50 | "c" matches comms and clear, so Tab keeps it |
| Terminal.NoEntryIsPrefixOfAnother | src/components/terminal.tsx:47 | no command word is a prefix of a different one |
| Terminal.CompleteFixesCommands | src/components/terminal.tsx:47-51 | Tab on a full command word leaves it unchanged |
| Terminal.CompleteIdempotent | src/components/terminal.tsx:47-51 | pressing Tab twice gives the same input as pressing it once |
| Terminal.CommandsAreRecognised | src/components/terminal.tsx:47 | every completion word normalises to itself and is a word the dispatcher has a case for |
| Terminal.Prompt.constructor | src/components/terminal.tsx:13 | the input line starts empty |
| Terminal.Prompt.HandleKeyDown | src/components/terminal.tsx:44-53 | Tab replaces the input by its completion; any other key leaves it alone |
| Terminal.Prompt.HandleChange | src/components/terminal.tsx:72 | the browser's edit replaces the input |
| Terminal.Prompt.HandleSubmit | src/components/terminal.tsx:36-42 | a line whose trimmed text is not empty is sent untrimmed to the dispatcher and cleared; a blank line is neither sent nor cleared and the page does not change; the URL the dispatcher opens, if any, is returned |
| Connections.Degree | src/components/cyber-grid.tsx:107 | the count of connections touching a particle is at most the list's length, and is zero exactly when no connection touches it |
| Connections.Lifetime | src/components/cyber-grid.tsx:123 | `floor(r*200)+100` lies in [100, 299] for r in [0, 1) |
| Connections.NewConnection | src/components/cyber-grid.tsx:123-129 | a pushed connection joins its two particles and starts with `life == maxLife == Lifetime(r)`, which is live |
| Connections.Decayed | src/components/cyber-grid.tsx:95-100 | the reverse pass never grows the list and leaves every life at least 1 |
| Connections.DecayedStep | src/components/cyber-grid.tsx:95-100 | one turn of the reverse loop at index `i`, ageing and maybe splicing, extends the finished part of the pass to index `i` |
| Connections.SurvivorsIncrease | src/components/cyber-grid.tsx:95-100 | the indices the pass keeps lie in the list and increase |
| Connections.SurvivorsExactly | src/components/cyber-grid.tsx:96-98 | a connection is kept exactly when its life was above 1 before the decrement, that is, still above 0 after it |
| Connections.DecayedKeepsOrder | src/components/cyber-grid.tsx:95-100 | the result is the survivors, in their old order, each with exactly one frame less of life |
| Connections.AgedSubsequence | src/components/cyber-grid.tsx:95-100 | aged, still-live copies taken in increasing order from a well-formed list form a well-formed list |
| Connections.DecayedWellFormed | src/components/cyber-grid.tsx:95-100 | the pass keeps endpoints ordered and in range, life bounds, and the absence of duplicate pairs |
| Connections.Partner | src/components/cyber-grid.tsx:107-131 | a particle already at its target gets no partner; a partner is a later particle, near and not yet linked, with no such particle before it; with no partner below the target, every later particle is far or linked |
| Connections.FirstFree | src/components/cyber-grid.tsx:110-131 | the inner loop finds the first later particle that is near and not yet linked; if it finds none, every later particle is far or linked |
| Connections.Link | src/components/cyber-grid.tsx:103-135 | the scan keeps the old list as a prefix and pushes at most one edge per particle scanned |
| Connections.LinkOrdered | src/components/cyber-grid.tsx:103-131 | the edges pushed come from scanned particles, each from a later particle than the one before, so each particle gets at most one new edge per call |
| Connections.LinkPushes | src/components/cyber-grid.tsx:103-131 | each pushed edge goes from `i` to some `j` with `i < j < n`; it starts with its whole lifetime; it joins near particles that were not linked before; it is the first such partner; and `i`'s degree was below its target |
| Connections.PushedFirst | src/components/cyber-grid.tsx:107-130 | the edge pushed when particle `i`'s turn comes has all the properties above |
| Connections.LinkWellFormed | src/components/cyber-grid.tsx:103-135 | the scan keeps the list well formed: `from < to < n`, `1 <= life <= maxLife`, lifetimes in [100, 299], no pair joined twice in either direction |
| Connections.UpdateWellFormed | src/components/cyber-grid.tsx:90-136 | a whole `updateConnections` (the decrement pass, then the scan) keeps the list well formed |
| CyberGrid.ConfigFor | src/components/cyber-grid.tsx:34-45 | 30 particles in low-performance mode and 60 otherwise; a positive edge target and frame rate; a proper size range |
| CyberGrid.Reflect | src/components/cyber-grid.tsx:218-232 | the coordinate ends on [0, limit]; its speed is negated exactly when it was past an edge, and it is then put on that edge |
| CyberGrid.ReflectIdempotent | src/components/cyber-grid.tsx:218-232 | bouncing a bounced coordinate changes nothing |
| CyberGrid.Particle.Move | src/components/cyber-grid.tsx:214-215 | the position advances by the speed |
| CyberGrid.Particle.Bounce | src/components/cyber-grid.tsx:218-232 | each axis is `Reflect` of the old value, and the particle is on the canvas afterwards |
| CyberGrid.Particle.Damp | src/components/cyber-grid.tsx:235-236 | the speed is multiplied by 0.99 and the position is kept |
| CyberGrid.Particle.Advance | src/components/cyber-grid.tsx:213-236 | move, bounce, then friction, ending on the canvas |
| CyberGrid.ConnectionTarget | src/components/cyber-grid.tsx:58 | `floor(r*connectionMaxCount)` lies in [0, connectionMaxCount-1] |
| CyberGrid.Scaled | src/components/cyber-grid.tsx:52-53 | a random fraction of the canvas size lies on the canvas |
| CyberGrid.Targets | src/components/cyber-grid.tsx:109 | the per-particle edge targets, one per particle, in order |
| CyberGrid.Particle.constructor | src/components/cyber-grid.tsx:51-59 | a particle holds exactly the seven values it is built from |
| CyberGrid.Grid.constructor | src/components/cyber-grid.tsx:29-45 | the canvas starts with its configuration and no particles or connections |
| CyberGrid.Grid.Spawn | src/components/cyber-grid.tsx:51-59 | a new particle is built from its seven random draws and starts on the canvas |
| CyberGrid.Grid.InitParticles | src/components/cyber-grid.tsx:47-62 | exactly `particleCount` fresh particles, each on the canvas with target below `connectionMaxCount`, and an empty connection list |
| CyberGrid.Grid.DecayConnections | src/components/cyber-grid.tsx:95-100 | the reverse loop with its in-place decrement and splice leaves exactly `Decayed` of the old list |
| CyberGrid.Grid.LinkOne | src/components/cyber-grid.tsx:104-134 | one turn of the outer loop pushes the edge `Partner` gives for the particle, or nothing |
| CyberGrid.Grid.LinkParticles | src/components/cyber-grid.tsx:103-135 | the nested scan leaves exactly `Link` of the old list |
| CyberGrid.Grid.UpdateConnections | src/components/cyber-grid.tsx:90-136 | the list becomes `Link(Decayed(old))`; particles are untouched; the list stays well formed |
| CyberGrid.Grid.MoveParticles | src/components/cyber-grid.tsx:189-236 | every particle advances and ends on the canvas |
| CyberGrid.FrameGate.constructor | src/components/cyber-grid.tsx:140-141 | the target frame time is 1000/maxFPS and positive, and the last render time starts at 0 |
| CyberGrid.FrameGate.Frame | src/components/cyber-grid.tsx:143-148 | a frame renders exactly when at least the target time has passed since the last render, and only then records its time |
| CyberGrid.RenderedSpaced | src/components/cyber-grid.tsx:143-148 | over any run of frames, each rendered time is one of the frame times, the first is at least a target after the start, and consecutive renders are at least a target apart |
| FloatingTerminal.PickLog | components/floating-terminal.tsx:23 | the message picked is one of the nine |
| FloatingTerminal.Text | components/floating-terminal.tsx:27 | a line is the time stamp, a space and the message |
| FloatingTerminal.LastFive | components/floating-terminal.tsx:28 | `slice(-5)` has `min(5, n)` elements and is a suffix of its input |
| FloatingTerminal.Appended | components/floating-terminal.tsx:26-29 | after a tick the list has at most five lines; the new entry is last; the rest is a suffix of the old list |
| FloatingTerminal.AppendedFrom | components/floating-terminal.tsx:26-29 | every line after a tick is the new entry or was there before |
| FloatingTerminal.AppendedMap | components/floating-terminal.tsx:27-28 | building the text before or after the window gives the same list |
| FloatingTerminal.AfterTicksWindow | components/floating-terminal.tsx:22-30 | after any run of ticks the window holds exactly the newest five lines ever appended, oldest first |
| FloatingTerminal.LastFiveAppend | components/floating-terminal.tsx:28 | trimming early does not change the newest five |
| FloatingTerminal.TickConsistent | components/floating-terminal.tsx:22-30 | a tick keeps at most five lines, each the text of a stamped line carrying one of the nine messages |
| FloatingTerminal.Monitor.constructor | components/floating-terminal.tsx:6-7 | the monitor starts visible with no log lines |
| FloatingTerminal.Monitor.Tick | components/floating-terminal.tsx:22-30 | the log list becomes `Appended(old, stamp + " " + message)` with the message one of the nine; visibility is kept |
| FloatingTerminal.Monitor.Close | components/floating-terminal.tsx:41 | the window is hidden |
| FloatingTerminal.Monitor.Render | components/floating-terminal.tsx:35 | a hidden window renders nothing, a visible one its lines |
| Skills.ScanStep | src/components/skills-section.tsx:165 | the step is positive and divides 100 |
| Skills.ScanInterval | src/components/skills-section.tsx:168 | 25 ms exactly on mobile, 50 ms otherwise |
| Skills.ScanTick | src/components/skills-section.tsx:159-166 | below 100 the bar moves by one step; at or past 100 it is set to exactly 100, the cards show and the timer stops |
| Skills.ScanRunFromStart | src/components/skills-section.tsx:156-172 | with a fixed mobile flag, after `k` ticks the bar stands at `min(k*step, 100)`; it reaches exactly 100 and never passes it; the cards show exactly once the timer has stopped |
| Skills.ScanRunSplit | src/components/skills-section.tsx:157-169 | `k+1` ticks are `k` ticks and one more |
| Skills.ScanOvershootOnFlagChange | src/components/skills-section.tsx:159-172 | a bar at 98 steps to 102 if the mobile flag turns on, then snaps back to 100 |
| Skills.Toggle | src/components/skills-section.tsx:270 | clicking the open card closes it; clicking any other card opens that one |
| Skills.ToggleTwice | src/components/skills-section.tsx:353 | two clicks on a card restore it if it was open and close the selection otherwise |
| Skills.StatusColor | src/components/skills-section.tsx:174-185 | the colour classes are one of the four pairs |
| Skills.StatusText | src/components/skills-section.tsx:187-198 | completed/in-progress/planned give COMPLETED/IN PROGRESS/PLANNED, and anything else gives UNKNOWN |
| Skills.Split | src/components/skills-section.tsx:364 | `split` gives at least one piece and no piece holds the separator |
| Skills.SplitJoin | src/components/skills-section.tsx:364 | the pieces joined by the separator give back the input |
| Skills.SplitSpaceThen | src/components/skills-section.tsx:364 | a separator and then a word split into an empty piece and that word |
| Skills.SplitTwoWords | src/components/skills-section.tsx:364 | two space-free words joined by one space split into exactly those words |
| Skills.SplitWord | src/components/skills-section.tsx:364 | a word without the separator is a single piece |
| Skills.SplitPrefix | src/components/skills-section.tsx:364 | a separator-free prefix joins the first piece |
| Skills.BadgeOfHue | src/components/skills-section.tsx:364 | a colour's class string splits into exactly its text class and its background class |
| Skills.ColorIsHue | src/components/skills-section.tsx:174-185 | every colour pair is the text class and the background class of one space-free colour |
| Skills.BadgeClass | src/components/skills-section.tsx:364 | the badge of every status uses `"bg-"` plus that status's colour: the second word of its colour classes |
| Skills.SkillsPanel.constructor | src/components/skills-section.tsx:27-30 | the bar starts at 0 with the cards hidden and the timer running, and nothing is selected |
| Skills.SkillsPanel.Tick | src/components/skills-section.tsx:159-166 | the scan state becomes `ScanTick` of the old one; the selections are kept |
| Skills.SkillsPanel.ClickSkill | src/components/skills-section.tsx:270 | the skill selection toggles and nothing else changes |
| Skills.SkillsPanel.ClickCert | src/components/skills-section.tsx:353 | the certification selection toggles and nothing else changes |
| About.Speed | src/components/about-section.tsx:54 | 10 ms exactly on mobile, 20 ms otherwise |
| About.Restarted | src/components/about-section.tsx:52-55 | re-running the effect puts the counter at 0 and the timer on, keeps the text shown, and keeps the state consistent |
| About.Step | src/components/about-section.tsx:55-62 | while characters remain, a tick shows the first `index+1` characters and increments the counter; at the end the timer stops with the whole text shown; the text shown is always a prefix of the full text |
| About.Revealing | src/components/about-section.tsx:55-62 | `k` ticks from a running state reveal the next `k` characters, one per tick |
| About.RevealsAll | src/components/about-section.tsx:52-65 | after a restart, one tick per character plus one more shows the whole text and clears the timer |
| About.StepsSplit | src/components/about-section.tsx:55-62 | `k+1` ticks are `k` ticks and one more |
| About.StoppedStays | src/components/about-section.tsx:60 | a cleared timer never changes the state again |
| About.Typewriter.constructor | src/components/about-section.tsx:10-11 | the typewriter starts with nothing shown, the counter at 0, and the timer running at the speed for the screen |
| About.Typewriter.Restart | src/components/about-section.tsx:52-65 | the state becomes `Restarted` of the old one and the interval is set for the screen |
| About.Typewriter.Tick | src/components/about-section.tsx:55-62 | the state becomes `Step` of the old one, so the text shown stays a prefix of the full text |
| Contact.With | src/components/contact-section.tsx:33-38 | the named input takes the new value, and the other three inputs are unchanged |
| Contact.Extensional | src/components/contact-section.tsx:12-17 | two records that agree on all four inputs are equal |
| Contact.WithSame | src/components/contact-section.tsx:33-38 | writing an input's own value back changes nothing |
| Contact.WithOverwrites | src/components/contact-section.tsx:33-38 | the later of two writes to an input wins |
| Contact.WithCommutes | src/components/contact-section.tsx:33-38 | writes to different inputs commute |
| Contact.SubmitLabel | src/components/contact-section.tsx:128 | the button reads "[SENDING...]" exactly while a submit is pending |
| Contact.ContactForm.constructor | src/components/contact-section.tsx:12-19 | the form starts blank, with nothing pending or sent |
| Contact.ContactForm.HandleInputChange | src/components/contact-section.tsx:33-38 | the record becomes `With(old, field, value)`; the flags are kept |
| Contact.ContactForm.BeginSubmit | src/components/contact-section.tsx:23 | the submit is pending and the button is disabled |
| Contact.ContactForm.FinishSubmit | src/components/contact-section.tsx:28-30 | nothing is pending, the message counts as sent, and all four inputs are empty |
| Contact.ContactForm.Submit | src/components/contact-section.tsx:21-31 | a submit has no failure path and always ends sent with a blank form |
| Contact.ContactForm.SendNewMessage | src/components/contact-section.tsx:61 | the form shows again, and the record and pending flag are untouched |
| Responsive.OrientationOf | scripts/responsive-test.js:10 | landscape exactly when the width exceeds the height |
| Responsive.LastActive | scripts/responsive-test.js:28-36 | the walk ends with a key exactly when some range is active, and that key is the key of an active range |
| Responsive.IndexOf | scripts/responsive-test.js:19-26 | the range a width from 0 up falls in |
| Responsive.ExactlyOne | scripts/responsive-test.js:19-30 | every width from 0 up lies in exactly one range, and a negative width in none |
| Responsive.LastActiveIsBreakpoint | scripts/responsive-test.js:19-36 | the walk finds xs below 480, sm below 768, md below 1024, lg below 1280, xl below 1536, and 2xl above; it finds nothing for a negative width |
| Responsive.CurrentBreakpoint | scripts/responsive-test.js:28-36 | the `forEach` loop leaves the key of the one range the width lies in, or "" when there is none |
| Responsive.CoresOf | scripts/responsive-test.js:119 | a missing or zero core count counts as 2; any other reported count is kept |
| Responsive.MemoryOf | scripts/responsive-test.js:120 | a missing or zero memory size counts as 4; any other reported size is kept |
| Responsive.ConnectionOf | scripts/responsive-test.js:121 | a missing or empty connection type counts as "4g"; any other reported type is kept |
| Responsive.CoresPoints | scripts/responsive-test.js:125-126 | 25 points exactly from 4 cores up, 0 exactly below 2, and 15 otherwise |
| Responsive.MemoryPoints | scripts/responsive-test.js:128-129 | 25 points exactly from 8 up, 0 exactly below 4, and 15 otherwise |
| Responsive.ConnectionPoints | scripts/responsive-test.js:131-132 | 25 points exactly for "4g", 15 exactly for "3g", and 0 otherwise |
| Responsive.WidthPoints | scripts/responsive-test.js:134 | 25 points exactly from 1024 up, 10 exactly below 768, and 15 otherwise |
| Responsive.Score | scripts/responsive-test.js:124-134 | the device score lies in [10, 100] |
| Responsive.DeviceScore | scripts/responsive-test.js:124-134 | the `+=` chain adds up to the sum of the four parts, in [10, 100] |
| Responsive.ScoreMonotone | scripts/responsive-test.js:124-134 | a device at least as strong on every count never scores lower |
| Responsive.MissingFieldsScore | scripts/responsive-test.js:118-134 | with no navigator values the defaults earn 55 points, so the score is at least 65 |
| Responsive.StatusOf | scripts/responsive-test.js:136-137 | Excellent from 80, Good from 60, Fair from 40, Poor below, each in both directions |
| Responsive.Recommendations | scripts/responsive-test.js:145-166 | mobile advice exactly for xs or sm, touch advice exactly with touch support, performance advice exactly for a score below 60; no section is printed twice |
| Responsive.MobileAdviceByWidth | scripts/responsive-test.js:145 | the mobile advice appears exactly for widths from 0 below 768 |
| Responsive.MobileAdviceMatchesPanels | scripts/responsive-test.js:145 | for widths from 0 up, the mobile advice appears exactly where `Skills.IsMobile` holds, the 768-pixel test the panels use |

Notes on how the model reads the code:

- **Draw indexing.** `Connections.Link` gives the edge pushed for particle `i` the draw `draws[i]` (see `Connections.Pushed`). The code consumes one `Math.random()` per push. Since every draw is an arbitrary value in [0, 1), choosing one per particle covers the same set of outcomes.
- **Scan bar overshoot.** In the skills panel a new timer starts when the mobile flag changes, but the bar keeps its progress. A bar at 98 that switches to the mobile step therefore shows 102 for one tick before it is set back to 100 (`Skills.ScanOvershootOnFlagChange`). With a fixed flag the bar never passes 100 (`Skills.ScanRunFromStart`).
- **Screen-size flag.** The about panel's 768-pixel test (src/components/about-section.tsx:46) is the same as `Skills.IsMobile`. It enters the model as the `isMobile` flag. `Responsive.MobileAdviceMatchesPanels` ties the report's xs and sm breakpoints to the same test.

## Left out

- JSX rendering, the Tailwind class strings other than the badge class, and the SVG and three.js scenes of the context components: these are static markup.
- Canvas drawing in cyber-grid.tsx (grid lines, gradients, arcs, fade fill, connection alpha and packet interpolation): output-only floating-point work.
- The Euclidean distance test between particles is the parameter `near`. Mouse attraction and the speed cap (src/components/cyber-grid.tsx:193-211) are left out, because they rest on `Math.sqrt`.
- Canvas resizing and the device-pixel-ratio scaling: browser plumbing.
- JavaScript numbers: positions, speeds, sizes, canvas dimensions, opacity, friction, frame times and memory sizes are `real`, so products such as the 0.99 friction and `1000 / maxFPS` are exact, with no floating-point rounding. Viewport widths and heights, core counts, scores, lives and indices are `int` or `nat`, with no 2^53 limit.
- The profile text of src/components/about-section.tsx:13-43: `About.Typewriter` takes its text as a parameter, and its lemmas hold for every text, so the literal itself is not part of the model.
- Timers, `requestAnimationFrame`, resize and mouse listeners, cleanup on unmount, and the two-second submit delay: each tick or event is one method call. The delay is the gap between `BeginSubmit` and `FinishSubmit`.
- The `window.open` calls of app/page.tsx: `HandleCommand` returns the URL instead of opening it.
- The blinking cursor and scroll-to-bottom effects of the terminal: display only.
- Locale date and time formatting (`toLocaleString`, `toLocaleTimeString`): the time stamp is an input string.
- `toLowerCase` covers ASCII letters only; full Unicode case mapping is not modelled.
- The touch, media-query, layout-shift, image-format and accessibility probes of scripts/responsive-test.js, and all of its `console` output. Touch support enters as the `hasTouch` flag.
- scripts/performance-test.js and src/components/background-animations.tsx: random fake metrics, timing, and user-agent probing, with no logic of their own.
- Connections.Link: the pushed edges are proved to satisfy `Pushed`. The converse is not stated: that a particle whose `Partner` exists always gets an edge.
- Skills.BadgeClass: for colour classes without a second word, JavaScript would render `undefined`, while the model gives "". No status reaches that case (the contract of `Skills.BadgeClass`).
- CyberGrid.Grid.LinkParticles: the draw for a push is the scanned particle's entry of `draws`, not the next unused one; see the note on draw indexing above.
