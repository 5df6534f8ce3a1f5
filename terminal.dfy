/**
 * The terminal's input line: Tab completes the typed text to the one
 * command word it is a prefix of, and submitting forwards non-blank text
 * to the page's dispatcher and clears the line.
 */
module Terminal {
  import opened Options
  import Text
  import Portfolio

  /** The words Tab completes to. */
  const Commands: seq<string> := ["sitrep", "profile", "missions", "loadout", "comms", "clear", "recon", "base"]

  /** `s.startsWith(prefix)`. */
  predicate StartsWith(s: string, prefix: string) {
    |prefix| <= |s| && s[..|prefix|] == prefix
  }

  /** No entry occurs twice. */
  predicate Distinct(cs: seq<string>) {
    forall i, j :: 0 <= i < j < |cs| ==> cs[i] != cs[j]
  }

  /** `cs.filter(c => c.startsWith(prefix))`: exactly the entries that start with `prefix`, in their order. */
  function Filter(cs: seq<string>, prefix: string): (r: seq<string>)
    ensures forall c :: c in r <==> c in cs && StartsWith(c, prefix)
    ensures Distinct(cs) ==> Distinct(r)
    ensures |r| <= |cs|
  {
    if cs == [] then []
    else
      var rest := Filter(cs[1..], prefix);
      assert Distinct(cs) ==> Distinct(cs[1..]) && cs[0] !in rest;
      if StartsWith(cs[0], prefix) then [cs[0]] + rest else rest
  }

  /** The set of command words the typed text (lower-cased) is a prefix of. */
  function Candidates(input: string): set<string> {
    set c | c in Commands && StartsWith(c, Text.ToLower(input))
  }

  lemma {:induction false} DistinctCardinality(s: seq<string>)
    requires Distinct(s)
    ensures |set x | x in s| == |s|
  {
    if s != [] {
      assert Distinct(s[1..]);
      DistinctCardinality(s[1..]);
      assert (set x | x in s) == {s[0]} + (set x | x in s[1..]);
    }
  }

  lemma CommandsDistinct()
    ensures Distinct(Commands)
  {
  }

  /** The `matches` list of `handleKeyDown`: as many entries as there are candidates. */
  function Matches(input: string): (m: seq<string>)
    ensures (set c | c in m) == Candidates(input)
    ensures |m| == |Candidates(input)|
  {
    var m := Filter(Commands, Text.ToLower(input));
    CommandsDistinct();
    DistinctCardinality(m);
    assert (set c | c in m) == Candidates(input);
    m
  }

  /**
   * Tab completion: when exactly one command word starts with the
   * lower-cased input, the input becomes that word; otherwise it is kept.
   */
  function Complete(input: string): (r: string)
    ensures |Candidates(input)| == 1 ==> Candidates(input) == {r}
    ensures |Candidates(input)| != 1 ==> r == input
  {
    var m := Matches(input);
    OneMatch(m, Candidates(input));
    if |m| == 1 then m[0] else input
  }

  /** A list with as many entries as its set of elements has one entry exactly when that set is a singleton. */
  lemma OneMatch(m: seq<string>, s: set<string>)
    requires (set c | c in m) == s && |m| == |s|
    ensures |m| == 1 <==> |s| == 1
    ensures |m| == 1 ==> s == {m[0]}
  {
    if |m| == 1 {
      assert m == [m[0]];
      assert (set c | c in m) == {m[0]};
    }
  }

  /** The empty prefix matches every entry. */
  lemma {:induction false} FilterEmptyPrefix(cs: seq<string>)
    ensures Filter(cs, "") == cs
  {
    if cs != [] {
      FilterEmptyPrefix(cs[1..]);
    }
  }

  /** Tab on an empty line: all eight words match, so nothing is completed. */
  lemma EmptyMatchesAll()
    ensures Matches("") == Commands
    ensures Complete("") == ""
  {
    assert Text.ToLower("") == "";
    FilterEmptyPrefix(Commands);
  }

  lemma StartsWithC()
    ensures forall k :: 0 <= k < |Commands| ==> (StartsWith(Commands[k], "c") <==> Commands[k][0] == 'c')
  {
    forall k | 0 <= k < |Commands|
      ensures StartsWith(Commands[k], "c") <==> Commands[k][0] == 'c'
    {
      assert |Commands[k]| >= 1;
    }
  }

  lemma FilterCLastFive()
    ensures Filter(Commands[3..], "c") == ["comms", "clear"]
  {
    StartsWithC();
    assert Commands[3..][1..] == Commands[4..] && Commands[4..][1..] == Commands[5..];
    assert Commands[5..][1..] == Commands[6..] && Commands[6..][1..] == Commands[7..];
    assert Commands[7..][1..] == [];
    assert Filter(Commands[6..], "c") == [];
    assert Filter(Commands[5..], "c") == ["clear"];
  }

  lemma FilterCFirstThree()
    ensures Filter(Commands, "c") == Filter(Commands[3..], "c")
  {
    StartsWithC();
    assert Commands[1..][1..] == Commands[2..] && Commands[2..][1..] == Commands[3..];
    assert Filter(Commands[2..], "c") == Filter(Commands[3..], "c");
    assert Filter(Commands[1..], "c") == Filter(Commands[3..], "c");
  }

  /** Exactly "comms" and "clear" start with "c". */
  lemma FilterC()
    ensures Filter(Commands, "c") == ["comms", "clear"]
  {
    FilterCFirstThree();
    FilterCLastFive();
  }

  /** Tab after "c": "comms" and "clear" both match, so nothing is completed. */
  lemma PrefixCIsAmbiguous()
    ensures Matches("c") == ["comms", "clear"]
    ensures Complete("c") == "c"
  {
    assert Text.ToLower("c") == "c";
    FilterC();
  }

  /** No command word is a proper prefix of another. */
  lemma NoEntryIsPrefixOfAnother()
    ensures forall i, j :: 0 <= i < |Commands| && 0 <= j < |Commands| && i != j ==>
      !StartsWith(Commands[j], Commands[i])
  {
    forall i, j | 0 <= i < |Commands| && 0 <= j < |Commands| && i != j
      ensures !StartsWith(Commands[j], Commands[i])
    {
      var a, b := Commands[i], Commands[j];
      assert |a| >= 2;
      assert a[0] != b[0] || a[1] != b[1];
    }
  }

  lemma CommandsAreLowerCase()
    ensures forall i, k :: 0 <= i < |Commands| && 0 <= k < |Commands[i]| ==> !Text.IsUpper(Commands[i][k])
  {
  }

  /** Completion is idempotent: Tab on a full command word leaves it as it is. */
  lemma CompleteFixesCommands(i: nat)
    requires i < |Commands|
    ensures Complete(Commands[i]) == Commands[i]
  {
    var w := Commands[i];
    CommandsAreLowerCase();
    Text.ToLowerKeepsLower(w);
    NoEntryIsPrefixOfAnother();
    assert Candidates(w) == {w};
  }

  /** Whatever Tab produces, pressing it again changes nothing. */
  lemma CompleteIdempotent(input: string)
    ensures Complete(Complete(input)) == Complete(input)
  {
    if |Candidates(input)| == 1 {
      var r := Complete(input);
      var i :| 0 <= i < |Commands| && Commands[i] == r;
      CompleteFixesCommands(i);
    }
  }

  /** Every word Tab offers is one the dispatcher has a case for, and it dispatches as itself. */
  lemma CommandsAreRecognised(i: nat)
    requires i < |Commands|
    ensures Portfolio.Normalize(Commands[i]) == Commands[i]
    ensures Portfolio.Recognised(Commands[i])
  {
    var w := Commands[i];
    CommandsAreLowerCase();
    Text.ToLowerKeepsLower(w);
    Text.TrimKeepsTrimmed(w);
  }

  /** The input box of the terminal. */
  class Prompt {
    var input: string

    constructor ()
      ensures input == ""
    {
      input := "";
    }

    /** `handleKeyDown`: Tab completes; any other key leaves the input to the browser's own editing. */
    method HandleKeyDown(key: string)
      modifies this
      ensures input == if key == "Tab" then Complete(old(input)) else old(input)
    {
      if key == "Tab" {
        var matches := Matches(input);
        if |matches| == 1 {
          input := matches[0];
        }
      }
    }

    /** `onChange`: the browser's edit replaces the input. */
    method HandleChange(value: string)
      modifies this
      ensures input == value
    {
      input := value;
    }

    /**
     * `handleSubmit`: when the trimmed input is not empty, the untrimmed
     * input goes to the dispatcher and the line is cleared; a blank line
     * is neither sent nor cleared. `url` is the address the dispatcher
     * opened in a new tab, if any.
     */
    method HandleSubmit(page: Portfolio.Page) returns (sent: Option<string>, url: Option<string>)
      requires page.Valid()
      modifies this, page
      ensures page.Valid()
      ensures sent == if Text.Trim(old(input)) != "" then Some(old(input)) else None
      ensures sent.Some? ==> input == "" && page.View() == Portfolio.Dispatch(old(page.View()), sent.value)
      ensures sent.None? ==> input == old(input) && page.View() == old(page.View())
      ensures url == if sent.Some? then Portfolio.ExternalLink(Portfolio.Parse(Portfolio.Normalize(sent.value))) else None
    {
      if Text.Trim(input) != "" {
        var command := input;
        sent := Some(command);
        ghost var before := page.View();
        url := page.HandleCommand(command);
        ghost var after := page.View();
        assert after == Portfolio.Dispatch(before, command);
        input := "";
        assert page.View() == after;
      } else {
        sent := None;
        url := None;
      }
    }
  }
}
