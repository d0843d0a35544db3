/**
 * The older, smaller action engine: open a URL only when it has a scheme and
 * a host, and run a shell command behind a case-insensitive safe-mode screen.
 * Failures are logged and reported as False or None, never raised, except
 * what urlparse itself raises.
 *
 * urlparse is the abstract `parse` parameter: the parts of a URL, or the
 * ValueError message for a URL it cannot split.
 */
module Actions {
  import opened Wrappers
  import opened Values
  import opened Desktop
  import Text

  datatype Engine = Engine(safeMode: bool)

  /** The two fields of urlparse's result the guard looks at. */
  datatype UrlParts = UrlParts(scheme: string, netloc: string)

  type UrlParser = string -> Result<UrlParts>

  /** The substrings run_command refuses (in the lower-cased command). */
  const Blocklist := ["rm", "del", "format", "mkfs", ":(){:|:&}"]

  /** An outcome and the effects performed to reach it. */
  datatype Outcome<T> = Outcome(result: T, effects: seq<Effect>)

  /** is_safe_url: both the scheme and the network location are non-empty. */
  function IsSafeUrl(parse: UrlParser, url: string): (r: Result<bool>)
    ensures parse(url).Err? ==> r == Err(parse(url).error)
    ensures parse(url).Ok? ==> r == Ok(parse(url).value.scheme != [] && parse(url).value.netloc != [])
  {
    match parse(url)
    case Err(e) => Err(e)
    case Ok(p) => Ok(p.scheme != [] && p.netloc != [])
  }

  /** open_url: an unsafe URL is refused unopened; a browser failure is False. */
  function OpenUrl(env: Env, parse: UrlParser, url: string): (r: Outcome<Result<bool>>)
    ensures r.result.Err? ==> parse(url).Err? && r.effects == []
    ensures r.effects != [] <==> IsSafeUrl(parse, url) == Ok(true)
    ensures r.effects != [] ==> r.effects == [OpenBrowser(Str(url))] && r.result == Ok(env.openBrowser(Str(url)).None?)
    ensures r.result == Ok(true) ==> r.effects == [OpenBrowser(Str(url))]
  {
    match IsSafeUrl(parse, url)
    case Err(e) => Outcome(Err(e), [])
    case Ok(false) => Outcome(Ok(false), [])
    case Ok(true) => Outcome(Ok(env.openBrowser(Str(url)).None?), [OpenBrowser(Str(url))])
  }

  /** The safe-mode screen of run_command: a listed substring of the lower-cased command. */
  function Refused(command: string): (r: bool)
    ensures r <==> exists i :: 0 <= i < |Blocklist| && Text.Contains(Text.Lower(command), Blocklist[i])
  {
    Text.ContainsAny(Text.Lower(command), Blocklist)
  }

  /** What the shell printed, or None when it raised or timed out. */
  function StdoutOf(c: Completed): (r: Option<string>)
    ensures c.Completed? ==> r == Some(c.stdout)
    ensures c.RunRaised? ==> r == None
  {
    match c
    case Completed(out, _, _) => Some(out)
    case RunRaised(_) => None
  }

  /** run_command: a refused command runs nothing; otherwise the shell runs it. */
  function RunCommand(e: Engine, env: Env, command: string): (r: Outcome<Option<string>>)
    ensures e.safeMode && Refused(command) ==> r == Outcome(None, [])
    ensures !(e.safeMode && Refused(command)) ==>
      r == Outcome(StdoutOf(env.shell(command)), [RunShell(command)])
    ensures r.result.Some? ==> r.effects == [RunShell(command)] && env.shell(command).Completed?
  {
    if e.safeMode && Refused(command) then Outcome(None, [])
    else Outcome(StdoutOf(env.shell(command)), [RunShell(command)])
  }

  /**
   * The screen is a substring test on the lower-cased text: a command in
   * which any listed word is merely part of a longer word, such as
   * "firmware", is refused just the same.
   */
  lemma {:induction false} FirmwareRefused()
    ensures Refused("firmware")
  {
    var low := Text.Lower("firmware");
    assert low == "firmware";
    assert Text.OccursAt(low, "rm", 2);
    Text.ContainsAt(low, "rm", 2);
  }

  /** A command with a listed word anywhere in it, written in any case, is refused. */
  lemma {:induction false} RefusedWithin(pre: string, w: string, post: string, word: nat)
    requires word < |Blocklist| && Text.Lower(w) == Blocklist[word]
    ensures Refused(pre + w + post)
  {
    var s := pre + w + post;
    var low := Text.Lower(s);
    assert low[|pre|..|pre| + |w|] == Blocklist[word] by {
      forall k | 0 <= k < |w| ensures low[|pre| + k] == Blocklist[word][k] {
        assert s[|pre| + k] == w[k];
      }
    }
    assert Text.OccursAt(low, Blocklist[word], |pre|);
    Text.ContainsAt(low, Blocklist[word], |pre|);
  }
}
