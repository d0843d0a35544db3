/**
 * The desktop ActionEngine: run programs behind a safe-mode screen, and
 * click, type, press, speak and find on screen when the libraries for them
 * are installed. Every operation answers a dict with "success".
 *
 * Whether pyautogui and pyttsx3 imported (and the speech engine started) is
 * fixed when the engine is built; the calls themselves are the Env outcomes.
 */
module ActionEngine {
  import opened Wrappers
  import opened Values
  import opened Desktop
  import Text

  datatype Engine = Engine(safeMode: bool, guiAvailable: bool, ttsAvailable: bool)

  /** The patterns execute_command screens for, tested as plain substrings. */
  const DangerousPatterns := [
    "rm -rf", "format", "mkfs", "dd if=", ":(){:|:}",
    ">/dev/sd", "chmod -R", "chown -R", "wget.*|.*sh",
    "curl.*|.*sh", "^sudo", "^su\\s"]

  function Failure(message: string): Value {
    Dict([("success", Bool(false)), ("error", Str(message))])
  }

  function Success(message: string): Value {
    Dict([("success", Bool(true)), ("message", Str(message))])
  }

  const NoGui := "PyAutoGUI not available"

  /** The argument vector execute_command runs: `[command] + (args or [])`. */
  function Argv(command: string, args: Option<seq<string>>): (argv: seq<string>)
    ensures |argv| >= 1 && argv[0] == command
  {
    [command] + args.GetOr([])
  }

  /** The result dict of a subprocess.run that returned, or of the exception it raised. */
  function RunResponse(c: Completed): (r: Value)
    ensures r.Dict? && Get(r.entries, "success") == Bool(c.Completed?)
    ensures c.Completed? ==>
      Get(r.entries, "stdout") == Str(c.stdout) && Get(r.entries, "stderr") == Str(c.stderr)
      && Get(r.entries, "return_code") == Int(c.returnCode)
    ensures c.RunRaised? ==> Get(r.entries, "error") == Str(c.message)
  {
    match c
    case Completed(out, err, code) =>
      var es := [("success", Bool(true)), ("stdout", Str(out)), ("stderr", Str(err)), ("return_code", Int(code))];
      assert "stdout"[1] != "success"[1] && "stderr"[1] != "success"[1] && "return_code"[0] != "success"[0];
      assert "stderr"[3] != "stdout"[3] && "return_code"[0] != "stdout"[0] && "return_code"[0] != "stderr"[0];
      assert Get(es[3..], "return_code") == Int(code);
      assert Get(es[2..], "stderr") == Str(err) && Get(es[2..], "return_code") == Int(code);
      assert Get(es[1..], "stdout") == Str(out) && Get(es[1..], "stderr") == Str(err) && Get(es[1..], "return_code") == Int(code);
      assert Get(es, "stdout") == Str(out) && Get(es, "stderr") == Str(err) && Get(es, "return_code") == Int(code);
      Dict(es)
    case RunRaised(e) =>
      assert "error"[0] != "success"[0];
      assert Get([("error", Str(e))], "error") == Str(e);
      Failure(e)
  }

  function BlockedResponse(command: string): Value {
    Failure("Potentially dangerous command detected: " + command)
  }

  /** The screening loop: the index of the first pattern found in `text`, or -1. */
  method FirstMatch(patterns: seq<string>, text: string) returns (i: int)
    ensures -1 <= i < |patterns|
    ensures i == -1 <==> !Text.ContainsAny(text, patterns)
    ensures i >= 0 ==> Text.Contains(text, patterns[i])
    ensures i >= 0 ==> forall j :: 0 <= j < i ==> !Text.Contains(text, patterns[j])
  {
    var k := 0;
    while k < |patterns|
      invariant 0 <= k <= |patterns|
      invariant forall j :: 0 <= j < k ==> !Text.Contains(text, patterns[j])
    {
      if Text.Contains(text, patterns[k]) {
        return k;
      }
      k := k + 1;
    }
    return -1;
  }

  /**
   * execute_command(command, args): in safe mode a command text containing a
   * pattern is refused and nothing runs; otherwise the program runs with its
   * arguments. Only `command` is screened, never `args`.
   */
  method ExecuteCommand(e: Engine, env: Env, command: string, args: Option<seq<string>>)
    returns (response: Value, effects: seq<Effect>)
    ensures e.safeMode && Text.ContainsAny(command, DangerousPatterns) ==>
      response == BlockedResponse(command) && effects == []
    ensures !(e.safeMode && Text.ContainsAny(command, DangerousPatterns)) ==>
      response == RunResponse(env.run(Argv(command, args))) && effects == [RunProcess(Argv(command, args))]
  {
    if e.safeMode {
      var hit := FirstMatch(DangerousPatterns, command);
      if hit != -1 {
        return BlockedResponse(command), [];
      }
    }
    var argv := Argv(command, args);
    effects := [RunProcess(argv)];
    response := RunResponse(env.run(argv));
  }

  /**
   * The screen as evidently meant: the patterns are looked for in the whole
   * command line, and "^sudo" / "^su\s" are anchored regular expressions:
   * the line starts with "sudo", or with "su" and a whitespace character.
   */
  /** The text the intended screen reads: the command and its arguments, space-separated. */
  function CommandLine(command: string, args: seq<string>): (r: string)
    ensures Text.StartsWith(r, command)
    ensures args == [] ==> r == command
  {
    var parts := [command] + args;
    if |parts| > 1 then
      assert Text.Join(parts, " ") == command + " " + Text.Join(parts[1..], " ");
      Text.Join(parts, " ")
    else
      Text.Join(parts, " ")
  }

  predicate IsSpace(c: char) {
    c == ' ' || c == '\t' || c == '\n' || c == '\r' || c == '\U{000B}' || c == '\U{000C}'
  }

  function DangerousLine(command: string, args: seq<string>): (r: bool)
    ensures Text.ContainsAny(CommandLine(command, args), DangerousPatterns) ==> r
  {
    var line := CommandLine(command, args);
    Text.ContainsAny(line, DangerousPatterns)
    || Text.StartsWith(line, "sudo")
    || (Text.StartsWith(line, "su") && |line| > 2 && IsSpace(line[2]))
  }

  /** The intended screen refuses everything the written one refuses. */
  lemma {:induction false} DangerousLineCoversCommand(command: string, args: seq<string>)
    requires Text.ContainsAny(command, DangerousPatterns)
    ensures DangerousLine(command, args)
  {
    var i :| 0 <= i < |DangerousPatterns| && Text.Contains(command, DangerousPatterns[i]);
    var line := CommandLine(command, args);
    var rest := line[|command|..];
    assert line == "" + command + rest;
    Text.ContainsWithin(command, "", rest, DangerousPatterns[i]);
    assert Text.Contains(line, DangerousPatterns[i]);
  }

  /** The intended screen also sees a pattern inside any one argument. */
  lemma {:induction false} DangerousLineCoversArgs(command: string, args: seq<string>, k: nat, i: nat)
    requires k < |args| && i < |DangerousPatterns| && Text.Contains(args[k], DangerousPatterns[i])
    ensures DangerousLine(command, args)
  {
    var parts := [command] + args;
    Text.JoinContainsPart(parts, " ", k + 1);
    assert parts[k + 1] == args[k];
    Text.ContainsTrans(CommandLine(command, args), args[k], DangerousPatterns[i]);
  }

  /** "sudo", whatever follows it, is refused by the intended screen. */
  lemma SudoRefused(args: seq<string>)
    ensures DangerousLine("sudo", args)
  {
    assert Text.StartsWith(CommandLine("sudo", args), "sudo");
  }

  /** "su" followed by an argument is refused by the intended screen. */
  lemma SuRefused(args: seq<string>)
    requires args != []
    ensures DangerousLine("su", args)
  {
    var line := CommandLine("su", args);
    assert line == "su" + " " + Text.Join(args, " ");
    assert line[2] == ' ';
  }

  /** No pattern occurs in "sudo" or in "rm": each is longer, or starts with a letter they lack. */
  lemma {:induction false} ShortCommandsPass()
    ensures !Text.ContainsAny("sudo", DangerousPatterns)
    ensures !Text.ContainsAny("rm", DangerousPatterns)
  {
    forall i | 0 <= i < |DangerousPatterns| ensures !Text.Contains("sudo", DangerousPatterns[i]) {
      if Text.Contains("sudo", DangerousPatterns[i]) {
        Text.ContainsShorter("sudo", DangerousPatterns[i]);
        assert DangerousPatterns[i] == "mkfs";
        Text.AbsentHead("sudo", "mkfs");
      }
    }
    forall i | 0 <= i < |DangerousPatterns| ensures !Text.Contains("rm", DangerousPatterns[i]) {
      if Text.Contains("rm", DangerousPatterns[i]) {
        Text.ContainsShorter("rm", DangerousPatterns[i]);
      }
    }
  }

  /**
   * As written, safe mode lets `sudo rm -rf /` through: the command "sudo"
   * contains no pattern, and the arguments are not screened at all; the
   * intended screen refuses it.
   */
  lemma SudoRmRunsInSafeMode()
    ensures !Text.ContainsAny("sudo", DangerousPatterns)
    ensures DangerousLine("sudo", ["rm", "-rf", "/"])
  {
    ShortCommandsPass();
    SudoRefused(["rm", "-rf", "/"]);
  }

  /** open_url: the browser's exception is reported, not raised. */
  function OpenUrl(env: Env, url: string): (r: Value)
    ensures env.openBrowser(Str(url)).Some? ==> r == Failure(env.openBrowser(Str(url)).value)
    ensures env.openBrowser(Str(url)).None? ==> r == Success("Opened URL: " + url)
  {
    match env.openBrowser(Str(url))
    case Some(e) => Failure(e)
    case None => Success("Opened URL: " + url)
  }

  /** mouse_click(x, y). */
  function MouseClick(e: Engine, env: Env, x: int, y: int): (r: Value)
    ensures !e.guiAvailable ==> r == Failure(NoGui)
    ensures e.guiAvailable && env.click(Int(x), Int(y)).Some? ==> r == Failure(env.click(Int(x), Int(y)).value)
    ensures e.guiAvailable && env.click(Int(x), Int(y)).None? ==>
      r == Success("Clicked at (" + Text.IntText(x) + ", " + Text.IntText(y) + ")")
  {
    if !e.guiAvailable then Failure(NoGui)
    else
      match env.click(Int(x), Int(y))
      case Some(err) => Failure(err)
      case None => Success("Clicked at (" + Text.IntText(x) + ", " + Text.IntText(y) + ")")
  }

  /** pyautogui.write's default interval, 0.0 seconds. */
  const NoInterval := Float("0.0")

  /** type_text(text). */
  function TypeText(e: Engine, env: Env, text: string): (r: Value)
    ensures !e.guiAvailable ==> r == Failure(NoGui)
    ensures e.guiAvailable && env.write(Str(text), NoInterval).Some? ==> r == Failure(env.write(Str(text), NoInterval).value)
    ensures e.guiAvailable && env.write(Str(text), NoInterval).None? ==> r == Success("Typed text: " + text)
  {
    if !e.guiAvailable then Failure(NoGui)
    else
      match env.write(Str(text), NoInterval)
      case Some(err) => Failure(err)
      case None => Success("Typed text: " + text)
  }

  /** press_key(key). */
  function PressKey(e: Engine, env: Env, key: string): (r: Value)
    ensures !e.guiAvailable ==> r == Failure(NoGui)
    ensures e.guiAvailable && env.press(Str(key)).Some? ==> r == Failure(env.press(Str(key)).value)
    ensures e.guiAvailable && env.press(Str(key)).None? ==> r == Success("Pressed key: " + key)
  {
    if !e.guiAvailable then Failure(NoGui)
    else
      match env.press(Str(key))
      case Some(err) => Failure(err)
      case None => Success("Pressed key: " + key)
  }

  /** speak_text(text): without a speech engine nothing is said. */
  function SpeakText(e: Engine, env: Env, text: string): (r: Value)
    ensures !e.ttsAvailable ==> r == Failure("Text-to-speech not available")
    ensures e.ttsAvailable && env.say(text).Some? ==> r == Failure(env.say(text).value)
    ensures e.ttsAvailable && env.say(text).None? ==> r == Success("Spoke text successfully")
  {
    if !e.ttsAvailable then Failure("Text-to-speech not available")
    else
      match env.say(text)
      case Some(err) => Failure(err)
      case None => Success("Spoke text successfully")
  }

  /** find_on_screen(image_path): the box and its centre, or why there is none. */
  function FindOnScreen(e: Engine, env: Env, imagePath: string): (r: Value)
    ensures !e.guiAvailable ==> r == Failure(NoGui)
    ensures e.guiAvailable && env.locate(Str(imagePath)).LocateRaised? ==>
      r == Failure(env.locate(Str(imagePath)).message)
    ensures e.guiAvailable && env.locate(Str(imagePath)).NotLocated? ==> r == Failure("Image not found on screen")
    ensures e.guiAvailable && env.locate(Str(imagePath)).Located? ==>
      var box := env.locate(Str(imagePath)).location;
      r == Dict([("success", Bool(true)), ("location", box), ("center", env.center(box))])
  {
    if !e.guiAvailable then Failure(NoGui)
    else
      match env.locate(Str(imagePath))
      case Located(box) => Dict([("success", Bool(true)), ("location", box), ("center", env.center(box))])
      case NotLocated => Failure("Image not found on screen")
      case LocateRaised(err) => Failure(err)
  }

  /** The items `x, y, w, h = v` unpacks, or the ValueError / TypeError it raises. */
  function Unpack4(v: Value): (r: Result<seq<Value>>)
    ensures r.Ok? ==> |r.value| == 4
    ensures (v.List? || v.Tuple?) && |v.items| == 4 ==> r == Ok(v.items)
  {
    var items: Option<seq<Value>> :=
      match v
      case List(xs) => Some(xs)
      case Tuple(xs) => Some(xs)
      case Str(s) => Some(seq(|s|, i requires 0 <= i < |s| => Str([s[i]])))
      case Dict(es) => Some(seq(|es|, i requires 0 <= i < |es| => Str(es[i].0)))
      case _ => None;
    match items
    case None => Err("cannot unpack non-iterable " + TypeName(v) + " object")
    case Some(xs) =>
      if |xs| > 4 then Err("too many values to unpack (expected 4)")
      else if |xs| < 4 then Err("not enough values to unpack (expected 4, got " + Text.NatText(|xs|) + ")")
      else Ok(xs)
  }

  /** An int operand: bool is an int in Python. */
  function AsInt(v: Value): Option<int> {
    match v
    case Int(i) => Some(i)
    case Bool(b) => Some(if b then 1 else 0)
    case _ => None
  }

  /** `base + extent // 2`, or the TypeError it raises; // is floor division. */
  function Centre(base: Value, extent: Value): (r: Result<int>)
    ensures AsInt(base).Some? && AsInt(extent).Some? ==> r.Ok?
    ensures r.Ok? ==> AsInt(base).Some? && AsInt(extent).Some?
    ensures r.Ok? ==> 2 * (r.value - AsInt(base).value) <= AsInt(extent).value < 2 * (r.value - AsInt(base).value) + 2
  {
    match AsInt(extent)
    case None => Err("unsupported operand type(s) for //: '" + TypeName(extent) + "' and 'int'")
    case Some(w) =>
      match AsInt(base)
      case Some(x) => Ok(x + w / 2)
      case None =>
        if base.Str? || base.List? || base.Tuple? then
          Err("can only concatenate " + TypeName(base) + " (not \"int\") to " + TypeName(base))
        else Err("unsupported operand type(s) for +: '" + TypeName(base) + "' and 'int'")
  }

  /** click_element(element_info): click the centre of its "bounds" box. */
  function ClickElement(e: Engine, env: Env, elementInfo: Value): (r: Value)
    ensures !e.guiAvailable ==> r == Failure(NoGui)
  {
    if !e.guiAvailable then Failure(NoGui)
    else
      match Index(elementInfo, "bounds")
      case Err(err) => Failure(err)
      case Ok(bounds) =>
        match Unpack4(bounds)
        case Err(err) => Failure(err)
        case Ok(b) =>
          match Centre(b[0], b[2])
          case Err(err) => Failure(err)
          case Ok(cx) =>
            match Centre(b[1], b[3])
            case Err(err) => Failure(err)
            case Ok(cy) => MouseClick(e, env, cx, cy)
  }

  /** Integer bounds (x, y, w, h) are clicked at (x + w // 2, y + h // 2). */
  lemma ClickElementCentre(e: Engine, env: Env, es: seq<(string, Value)>, x: int, y: int, w: int, h: int)
    requires e.guiAvailable
    requires Index(Dict(es), "bounds") == Ok(List([Int(x), Int(y), Int(w), Int(h)]))
    ensures ClickElement(e, env, Dict(es)) == MouseClick(e, env, x + w / 2, y + h / 2)
    ensures 2 * (w / 2) <= w < 2 * (w / 2) + 2 && 2 * (h / 2) <= h < 2 * (h / 2) + 2
  {
    var b := [Int(x), Int(y), Int(w), Int(h)];
    assert Unpack4(List(b)) == Ok(b);
    assert Centre(b[0], b[2]) == Ok(x + w / 2);
    assert Centre(b[1], b[3]) == Ok(y + h / 2);
  }

  /** Element info without "bounds", or bounds that are not four values, is a failure, not a click. */
  lemma ClickElementMalformed(e: Engine, env: Env, info: Value)
    requires e.guiAvailable
    requires Index(info, "bounds").Err? || Unpack4(Index(info, "bounds").value).Err?
    ensures ClickElement(e, env, info) ==
      Failure(if Index(info, "bounds").Err? then Index(info, "bounds").error else Unpack4(Index(info, "bounds").value).error)
  {
  }
}
