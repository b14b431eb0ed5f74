/** The text command handler (CompileCommands.h): a line such as
    ".rampagent url example.org" is trimmed, loses one leading '.', is split
    into words, and is acted on when its first word is "rampagent" in any case. */
module Commands {
  import opened Host
  import opened Plugin

  /** std::isspace in the "C" locale: space, \t, \n, \v, \f and \r. */
  predicate IsSpace(c: char) {
    c == ' ' || '\t' <= c <= '\r'
  }

  /** std::tolower in the "C" locale. */
  function LowerChar(c: char): char {
    if 'A' <= c <= 'Z' then (c as int + 32) as char else c
  }

  function Lower(s: string): (r: string) {
    seq(|s|, i requires 0 <= i < |s| => LowerChar(s[i]))
  }

  /** s without its leading white space. */
  function TrimStart(s: string): (r: string)
    ensures |r| <= |s|
  {
    if |s| > 0 && IsSpace(s[0]) then TrimStart(s[1..]) else s
  }

  /** TrimStart drops exactly the white space in front of s. */
  lemma {:induction false} TrimStartDrops(s: string)
    ensures TrimStart(s) == s[|s| - |TrimStart(s)|..]
    ensures forall k :: 0 <= k < |s| - |TrimStart(s)| ==> IsSpace(s[k])
    ensures |TrimStart(s)| > 0 ==> !IsSpace(TrimStart(s)[0])
    decreases |s|
  {
    if |s| > 0 && IsSpace(s[0]) {
      TrimStartDrops(s[1..]);
      assert s[1..][|s| - 1 - |TrimStart(s)|..] == s[|s| - |TrimStart(s)|..];
      forall k | 1 <= k < |s| - |TrimStart(s)| ensures IsSpace(s[k]) {
        assert s[k] == s[1..][k - 1];
      }
    }
  }

  /** s without its trailing white space. */
  function TrimEnd(s: string): (r: string)
    ensures |r| <= |s|
  {
    if |s| > 0 && IsSpace(s[|s| - 1]) then TrimEnd(s[..|s| - 1]) else s
  }

  /** TrimEnd drops exactly the white space at the end of s. */
  lemma {:induction false} TrimEndDrops(s: string)
    ensures TrimEnd(s) == s[..|TrimEnd(s)|]
    ensures forall k :: |TrimEnd(s)| <= k < |s| ==> IsSpace(s[k])
    ensures |TrimEnd(s)| > 0 ==> !IsSpace(TrimEnd(s)[|TrimEnd(s)| - 1])
    decreases |s|
  {
    if |s| > 0 && IsSpace(s[|s| - 1]) {
      TrimEndDrops(s[..|s| - 1]);
      assert s[..|s| - 1][..|TrimEnd(s)|] == s[..|TrimEnd(s)|];
      forall k | |TrimEnd(s)| <= k < |s| - 1 ensures IsSpace(s[k]) {
        assert s[k] == s[..|s| - 1][k];
      }
    }
  }

  /** What the trim lambda leaves of s: leading white space erased first, then trailing. */
  function Trimmed(s: string): string {
    TrimEnd(TrimStart(s))
  }

  /** The trim lambda: two scans for the first and the last non-space character. */
  method Trim(s: string) returns (t: string)
    ensures t == Trimmed(s)
  {
    var i := 0;
    while i < |s| && IsSpace(s[i])
      invariant 0 <= i <= |s|
      invariant TrimStart(s[i..]) == TrimStart(s)
    {
      assert s[i..][1..] == s[i + 1..];
      i := i + 1;
    }
    t := s[i..];
    assert TrimStart(t) == t;
    var j := |t|;
    assert t[..j] == t;
    while j > 0 && IsSpace(t[j - 1])
      invariant 0 <= j <= |t|
      invariant TrimEnd(t[..j]) == TrimEnd(t)
    {
      assert t[..j][..j - 1] == t[..j - 1];
      j := j - 1;
    }
    assert TrimEnd(t[..j]) == t[..j];
    t := t[..j];
  }

  /** The word at the front of s: everything up to the first white space. */
  function TakeWord(s: string): (r: string)
    ensures |r| <= |s|
    ensures |s| > 0 && !IsSpace(s[0]) ==> |r| > 0 && r[0] == s[0]
  {
    if s == [] || IsSpace(s[0]) then [] else [s[0]] + TakeWord(s[1..])
  }

  /** TakeWord stops at the first white space of s, or at its end. */
  lemma {:induction false} TakeWordStops(s: string)
    ensures TakeWord(s) == s[..|TakeWord(s)|]
    ensures forall k :: 0 <= k < |TakeWord(s)| ==> !IsSpace(s[k])
    ensures |TakeWord(s)| < |s| ==> IsSpace(s[|TakeWord(s)|])
    decreases |s|
  {
    if s != [] && !IsSpace(s[0]) {
      TakeWordStops(s[1..]);
      forall k | 1 <= k < |TakeWord(s)| ensures !IsSpace(s[k]) {
        assert s[k] == s[1..][k - 1];
      }
    }
  }

  /** The words an istringstream over s yields with successive `>>` extractions. */
  function Words(s: string): (ws: seq<string>)
    ensures |s| > 0 && !IsSpace(s[0]) ==> |ws| > 0 && ws[0] == TakeWord(s)
    decreases |s|
  {
    var t := TrimStart(s);
    TrimStartDrops(s);
    if t == [] then []
    else
      var w := TakeWord(t);
      [w] + Words(t[|w|..])
  }

  /** Every word is non-empty and holds no white space. */
  lemma {:induction false} WordsAreWords(s: string)
    ensures forall i :: 0 <= i < |Words(s)| ==> Words(s)[i] != []
    ensures forall i, k :: 0 <= i < |Words(s)| && 0 <= k < |Words(s)[i]| ==> !IsSpace(Words(s)[i][k])
    decreases |s|
  {
    var t := TrimStart(s);
    TrimStartDrops(s);
    if t != [] {
      var w := TakeWord(t);
      TakeWordStops(t);
      WordsAreWords(t[|w|..]);
      var ws := Words(s);
      assert ws == [w] + Words(t[|w|..]);
      forall i, k | 0 <= i < |ws| && 0 <= k < |ws[i]| ensures !IsSpace(ws[i][k]) {
        if i == 0 {
          assert ws[0][k] == t[k];
        } else {
          assert ws[i] == Words(t[|w|..])[i - 1];
        }
      }
    }
  }

  /** The word a `>>` extraction leaves in an empty string: "" once the words run out. */
  function WordAt(ws: seq<string>, k: nat): string {
    if k < |ws| then ws[k] else ""
  }

  /** Removes the optional '.' of the EuroScope command convention. */
  function StripDot(s: string): string {
    if |s| > 0 && s[0] == '.' then s[1..] else s
  }

  /** What a command line asks for. */
  datatype Command =
    | NotHandled           // no line, a blank line, or not a rampagent command
    | ShowVersion
    | UrlUsage             // "url" without an argument
    | SetUrl(url: string)
    | Disconnect
    | ShowHelp             // any other or a missing subcommand

  /** OnCompileCommand's return value for each command. */
  predicate Handled(c: Command) {
    !c.NotHandled? && !c.UrlUsage?
  }

  /** The command that the words of a line, after the optional '.', ask for. */
  function Dispatch(ws: seq<string>): Command {
    if |ws| == 0 || Lower(ws[0]) != "rampagent" then NotHandled
    else
      var sub := Lower(WordAt(ws, 1));
      if sub == "version" then ShowVersion
      else if sub == "url" then (if WordAt(ws, 2) == [] then UrlUsage else SetUrl(WordAt(ws, 2)))
      else if sub == "disconnect" then Disconnect
      else ShowHelp
  }

  /** The command a line (None for a null pointer) asks for. */
  function Interpret(line: Option<string>): Command {
    match line
    case None => NotHandled
    case Some(l) =>
      var t := Trimmed(l);
      if t == [] then NotHandled else Dispatch(Words(StripDot(t)))
  }

  const UsageText: string := "Usage: .ramp url <domain (no https://)>"
  const HelpText: string := "Commands: .rampAgent version / .rampAgent disconnect / .rampAgent url <url>"

  /** OnCompileCommand: acts on the command the line asks for and says whether
      the line was handled. */
  method OnCompileCommand(p: PluginState, line: Option<string>) returns (handled: bool)
    modifies p`isConnected, p`isController, p`callsign, p`apiUrl, p`events
    ensures handled == Handled(Interpret(line))
    ensures Interpret(line).NotHandled? ==> unchanged(p)
    ensures !Interpret(line).Disconnect? ==>
      p.isConnected == old(p.isConnected) && p.isController == old(p.isController) && p.callsign == old(p.callsign)
    ensures !Interpret(line).SetUrl? ==> p.apiUrl == old(p.apiUrl)
    ensures match Interpret(line)
      case NotHandled => true
      case ShowVersion => p.events == old(p.events) + [Display("RampAgent version: " + RampAgentVersion)]
      case UrlUsage => p.events == old(p.events) + [Display(UsageText)]
      case SetUrl(u) =>
        p.apiUrl == p.changeApiUrl(old(p.apiUrl), u) && p.events == old(p.events) + [Display("API URL set to " + u)]
      case Disconnect =>
        !p.isConnected && !p.isController && p.callsign == [] && p.events == old(p.events) + [Display("Disconnected.")]
      case ShowHelp => p.events == old(p.events) + [Display(HelpText)]
  {
    if line.None? {
      return false;
    }
    var s := Trim(line.value);
    if s == [] {
      return false;
    }
    if |s| > 0 && s[0] == '.' {
      s := s[1..];
    }
    var words := Words(s);
    var cmd := WordAt(words, 0);
    if cmd == [] {
      return false;
    }
    var lcmd := Lower(cmd);
    if lcmd != "rampagent" {
      return false;
    }
    var sub := Lower(WordAt(words, 1));
    if sub == "version" {
      p.DisplayMessage("RampAgent version: " + RampAgentVersion);
      return true;
    }
    if sub == "url" {
      var url := WordAt(words, 2);
      if url == [] {
        p.DisplayMessage(UsageText);
        return false;
      }
      p.apiUrl := p.changeApiUrl(p.apiUrl, url);
      p.DisplayMessage("API URL set to " + url);
      return true;
    }
    if sub == "disconnect" {
      p.isConnected := false;
      p.isController := false;
      p.callsign := [];
      p.DisplayMessage("Disconnected.");
      return true;
    }
    p.DisplayMessage(HelpText);
    return true;
  }

  // Properties of Interpret.

  /** An all-white-space string trims to nothing. */
  lemma {:induction false} AllSpaceTrimsAway(s: string)
    requires forall k :: 0 <= k < |s| ==> IsSpace(s[k])
    ensures TrimStart(s) == []
    decreases |s|
  {
    if |s| > 0 {
      assert IsSpace(s[0]);
      AllSpaceTrimsAway(s[1..]);
    }
  }

  /** A null pointer and a line that is empty or all white space are not handled. */
  lemma BlankLineNotHandled(line: string)
    requires forall k :: 0 <= k < |line| ==> IsSpace(line[k])
    ensures Interpret(None) == NotHandled
    ensures Interpret(Some(line)) == NotHandled
  {
    AllSpaceTrimsAway(line);
  }

  /** Trimmed(s) is empty exactly when s is all white space, and otherwise it
      is s without its leading and trailing white space, starting and ending with a
      non-space character. */
  lemma TrimmedShape(s: string)
    ensures Trimmed(s) == [] <==> forall k :: 0 <= k < |s| ==> IsSpace(s[k])
    ensures Trimmed(s) != [] ==> !IsSpace(Trimmed(s)[0]) && !IsSpace(Trimmed(s)[|Trimmed(s)| - 1])
    ensures Trimmed(s) == s[|s| - |TrimStart(s)|..|s| - |TrimStart(s)| + |Trimmed(s)|]
  {
    var a := TrimStart(s);
    var t := Trimmed(s);
    TrimStartDrops(s);
    TrimEndDrops(a);
    var n := |s| - |a|;
    assert t == s[n..n + |t|];
    if forall k :: 0 <= k < |s| ==> IsSpace(s[k]) {
      AllSpaceTrimsAway(s);
    }
    if a != [] {
      assert a == [a[0]] + a[1..];
      TrimEndPrepend(a[0], a[1..]);
      assert t[0] == a[0];
    }
  }

  /** Prepending a character commutes with trimming the end, unless what is
      trimmed is all white space and so is the character. */
  lemma {:induction false} TrimEndPrepend(c: char, s: string)
    ensures TrimEnd([c] + s) == (if IsSpace(c) && TrimEnd(s) == [] then [] else [c] + TrimEnd(s))
    decreases |s|
  {
    if |s| > 0 && IsSpace(s[|s| - 1]) {
      assert ([c] + s)[..|s|] == [c] + s[..|s| - 1];
      TrimEndPrepend(c, s[..|s| - 1]);
    } else if s == [] {
      assert [c] + s == [c];
      assert [c][..0] == [];
    }
  }

  /** Trimming the end first and the start second gives the same as the trim lambda. */
  lemma {:induction false} TrimOrderIrrelevant(s: string)
    ensures TrimStart(TrimEnd(s)) == Trimmed(s)
    decreases |s|
  {
    if |s| > 0 {
      assert s == [s[0]] + s[1..];
      TrimEndPrepend(s[0], s[1..]);
      if IsSpace(s[0]) {
        TrimOrderIrrelevant(s[1..]);
        if TrimEnd(s[1..]) != [] {
          assert ([s[0]] + TrimEnd(s[1..]))[1..] == TrimEnd(s[1..]);
        }
      }
    }
  }

  /** The extraction skips leading white space, so it does not matter whether it was trimmed. */
  lemma WordsTrimStart(s: string)
    ensures Words(TrimStart(s)) == Words(s)
  {
    TrimStartDrops(s);
    assert TrimStart(TrimStart(s)) == TrimStart(s);
  }

  /** The line ".x" asks for what the words of x without its trailing white space ask for. */
  lemma DotLine(s: string)
    ensures Interpret(Some("." + s)) == Dispatch(Words(TrimEnd(s)))
  {
    assert TrimStart("." + s) == "." + s;
    TrimEndPrepend('.', s);
    assert StripDot("." + TrimEnd(s)) == TrimEnd(s);
  }

  /** Without a leading '.', the line x asks for what the words of x without its
      trailing white space ask for. */
  lemma PlainLine(s: string)
    requires TrimStart(s) == [] || TrimStart(s)[0] != '.'
    ensures Interpret(Some(s)) == Dispatch(Words(TrimEnd(s)))
  {
    var e := TrimEnd(s);
    TrimOrderIrrelevant(s);
    WordsTrimStart(e);
    var a := TrimStart(s);
    if a != [] {
      TrimStartDrops(s);
      assert a == [a[0]] + a[1..];
      TrimEndPrepend(a[0], a[1..]);
      assert StripDot(Trimmed(s)) == Trimmed(s);
    } else {
      assert Words([]) == [];
    }
  }

  /** One leading '.' is ignored: ".x" asks for what "x" asks for, unless
      x itself starts with a '.' after its leading white space. */
  lemma DotPrefixIgnored(s: string)
    requires TrimStart(s) == [] || TrimStart(s)[0] != '.'
    ensures Interpret(Some("." + s)) == Interpret(Some(s))
  {
    DotLine(s);
    PlainLine(s);
  }

  /** Only one '.' is removed: a line starting with ".." is never handled. */
  lemma DoubleDotNotHandled(s: string)
    ensures Interpret(Some(".." + s)) == NotHandled
  {
    var x := "." + s;
    assert ".." + s == "." + x;
    assert TrimStart("." + x) == "." + x;
    TrimEndPrepend('.', x);
    TrimEndPrepend('.', s);
    var d := "." + TrimEnd(s);
    assert Trimmed(".." + s) == "." + d;
    assert StripDot("." + d) == d;
    var ws := Words(d);
    assert ws[0] == TakeWord(d);
    assert ws[0][0] == '.';
    assert Lower(ws[0])[0] == '.';
  }

  // Case-insensitivity: lowercasing the whole line changes nothing but the case of the URL.

  predicate CaseOfArgumentOnly(lowered: Command, original: Command) {
    if original.SetUrl? then lowered == SetUrl(Lower(original.url)) else lowered == original
  }

  function LowerAll(ws: seq<string>): (r: seq<string>) {
    seq(|ws|, i requires 0 <= i < |ws| => Lower(ws[i]))
  }

  lemma LowerCharKeeps(c: char)
    ensures IsSpace(LowerChar(c)) == IsSpace(c)
    ensures (LowerChar(c) == '.') == (c == '.')
    ensures LowerChar(LowerChar(c)) == LowerChar(c)
  {
  }

  lemma LowerDrop(s: string, i: nat)
    requires i <= |s|
    ensures Lower(s)[i..] == Lower(s[i..])
  {
  }

  lemma LowerTake(s: string, j: nat)
    requires j <= |s|
    ensures Lower(s)[..j] == Lower(s[..j])
  {
  }

  lemma LowerIdempotent(s: string)
    ensures Lower(Lower(s)) == Lower(s)
  {
    forall k | 0 <= k < |s| ensures Lower(Lower(s))[k] == Lower(s)[k] {
      LowerCharKeeps(s[k]);
    }
  }

  lemma {:induction false} TrimStartLower(s: string)
    ensures TrimStart(Lower(s)) == Lower(TrimStart(s))
    decreases |s|
  {
    if s == [] {
      assert Lower(s) == [];
    } else {
      LowerCharKeeps(s[0]);
      assert Lower(s)[0] == LowerChar(s[0]);
      if IsSpace(s[0]) {
        LowerDrop(s, 1);
        TrimStartLower(s[1..]);
      }
    }
  }

  lemma {:induction false} TrimEndLower(s: string)
    ensures TrimEnd(Lower(s)) == Lower(TrimEnd(s))
    decreases |s|
  {
    if s == [] {
      assert Lower(s) == [];
    } else {
      LowerCharKeeps(s[|s| - 1]);
      assert Lower(s)[|s| - 1] == LowerChar(s[|s| - 1]);
      if IsSpace(s[|s| - 1]) {
        LowerTake(s, |s| - 1);
        TrimEndLower(s[..|s| - 1]);
      }
    }
  }

  lemma {:induction false} TakeWordLower(s: string)
    ensures TakeWord(Lower(s)) == Lower(TakeWord(s))
    decreases |s|
  {
    if s == [] {
      assert Lower(s) == [];
    } else {
      LowerCharKeeps(s[0]);
      assert Lower(s)[0] == LowerChar(s[0]);
      if IsSpace(s[0]) {
        assert Lower([]) == [];
      } else {
        LowerDrop(s, 1);
        TakeWordLower(s[1..]);
        assert Lower([s[0]] + TakeWord(s[1..])) == [LowerChar(s[0])] + Lower(TakeWord(s[1..]));
      }
    }
  }

  lemma {:induction false} WordsLower(s: string)
    ensures Words(Lower(s)) == LowerAll(Words(s))
    decreases |s|
  {
    var t := TrimStart(s);
    TrimStartLower(s);
    TrimStartDrops(s);
    if t == [] {
      assert Lower(t) == [];
    } else {
      var w := TakeWord(t);
      TakeWordLower(t);
      LowerDrop(t, |w|);
      WordsLower(t[|w|..]);
      assert LowerAll([w] + Words(t[|w|..])) == [Lower(w)] + LowerAll(Words(t[|w|..]));
    }
  }

  lemma DispatchLower(ws: seq<string>)
    ensures CaseOfArgumentOnly(Dispatch(LowerAll(ws)), Dispatch(ws))
  {
    if |ws| > 0 {
      LowerIdempotent(ws[0]);
      if |ws| > 1 {
        LowerIdempotent(ws[1]);
      }
    }
  }

  /** The command word and the subcommand are matched in any case; only the
      URL argument keeps the case it was typed in. */
  lemma CommandCaseInsensitive(line: string)
    ensures CaseOfArgumentOnly(Interpret(Some(Lower(line))), Interpret(Some(line)))
  {
    var t := Trimmed(line);
    TrimStartLower(line);
    TrimEndLower(TrimStart(line));
    assert Trimmed(Lower(line)) == Lower(t);
    if t != [] {
      var d := StripDot(t);
      LowerCharKeeps(t[0]);
      assert Lower(t)[0] == LowerChar(t[0]);
      LowerDrop(t, 1);
      assert StripDot(Lower(t)) == Lower(d);
      WordsLower(d);
      DispatchLower(Words(d));
    }
  }
}
