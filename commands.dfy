/**
 * CommandProcessor: run a parsed command against the desktop and keep the
 * history of the commands that ran.
 *
 * The parse step (_parse_command, which asks the model and digs the command
 * out of its JSON answer) is the `parsed` parameter: the Command, or the
 * message of the exception it raised. click, type_text and open_url of the
 * desktop action engine re-raise what pyautogui or webbrowser raise;
 * open_application reports a failed launch as False.
 */
module Commands {
  import opened Wrappers
  import opened Values
  import opened Desktop
  import Text
  import Dicts

  datatype Command = Command(action: Value, parameters: Value, rawText: string, confidence: Value)

  /** The value _execute_command returns or the exception it raises, and the effects it asked for. */
  datatype Executed = Executed(result: Result<Value>, effects: seq<Effect>)

  /** The typing interval type_text uses by default, 0.1 seconds. */
  const TypeInterval := Float("0.1")

  const KnownActions := [Str("open_app"), Str("open_url"), Str("click"), Str("type")]

  /** Python's `key in v` for a str key, or the TypeError when `v` is not a container. */
  function Member(key: string, v: Value): (r: Result<bool>)
    ensures v.Dict? ==> r == Ok(key in Dicts.Keys(v.entries))
    ensures (v.List? || v.Tuple?) ==> r == Ok(Str(key) in v.items)
    ensures v.Str? ==> r == Ok(Text.Contains(v.s, key))
    ensures r.Err? <==> !(v.Dict? || v.List? || v.Tuple? || v.Str?)
    ensures r.Err? ==> r.error == "argument of type '" + TypeName(v) + "' is not iterable"
  {
    match v
    case Dict(es) => Ok(key in Dicts.Keys(es))
    case List(xs) => Ok(Str(key) in xs)
    case Tuple(xs) => Ok(Str(key) in xs)
    case Str(s) => Ok(Text.Contains(s, key))
    case _ => Err("argument of type '" + TypeName(v) + "' is not iterable")
  }

  /** A call that may raise: its fault becomes the exception, else the result. */
  function Then(fault: Fault, result: Value): (r: Result<Value>)
    ensures fault.Some? ==> r == Err(fault.value)
    ensures fault.None? ==> r == Ok(result)
  {
    match fault
    case Some(e) => Err(e)
    case None => Ok(result)
  }

  /** The click branch of _execute_command: on found text, or at coordinates. */
  function ExecuteClick(env: Env, parameters: Value): (r: Executed)
    ensures |r.effects| <= 1
  {
    match Member("text", parameters)
    case Err(e) => Executed(Err(e), [])
    case Ok(true) =>
      (match Index(parameters, "text")
       case Err(e) => Executed(Err(e), [])
       case Ok(text) =>
         match env.findText(text)
         case Err(e) => Executed(Err(e), [])
         case Ok(found) =>
           if found != [] then
             Executed(Then(env.click(found[0].x, found[0].y), Dict([("clicked", text)])), [Click(found[0].x, found[0].y)])
           else
             Executed(Ok(Dict([("error", Str("Text '" + StrOf(text) + "' not found"))])), []))
    case Ok(false) =>
      match Index(parameters, "x")
      case Err(e) => Executed(Err(e), [])
      case Ok(x) =>
        match Index(parameters, "y")
        case Err(e) => Executed(Err(e), [])
        case Ok(y) => Executed(Then(env.click(x, y), Dict([("clicked_at", Tuple([x, y]))])), [Click(x, y)])
  }

  /** _execute_command: dispatch on the action; anything else is a ValueError. */
  function ExecuteCommand(env: Env, c: Command): (r: Executed)
    ensures |r.effects| <= 1
    ensures c.action !in KnownActions ==> r == Executed(Err("Unknown action: " + StrOf(c.action)), [])
    ensures r.result.Ok? ==> r.result.value.Dict? && |r.result.value.entries| == 1
  {
    if c.action == Str("open_app") then
      match Index(c.parameters, "name")
      case Err(e) => Executed(Err(e), [])
      case Ok(name) => Executed(Ok(Dict([("opened", Bool(env.spawn(name).None?))])), [Spawn(name)])
    else if c.action == Str("open_url") then
      match Index(c.parameters, "url")
      case Err(e) => Executed(Err(e), [])
      case Ok(url) => Executed(Then(env.openBrowser(url), Dict([("opened_url", url)])), [OpenBrowser(url)])
    else if c.action == Str("click") then
      ExecuteClick(env, c.parameters)
    else if c.action == Str("type") then
      match Index(c.parameters, "text")
      case Err(e) => Executed(Err(e), [])
      case Ok(text) => Executed(Then(env.write(text, TypeInterval), Dict([("typed", text)])), [Write(text)])
    else
      Executed(Err("Unknown action: " + StrOf(c.action)), [])
  }

  /** A click on text that the screen search does not find reports it and clicks nothing. */
  lemma ClickTextNotFound(env: Env, c: Command, es: seq<(string, Value)>, text: Value)
    requires c.action == Str("click") && c.parameters == Dict(es)
    requires Dicts.Lookup(es, "text") == Some(text) && env.findText(text) == Ok([])
    ensures ExecuteCommand(env, c) == Executed(Ok(Dict([("error", Str("Text '" + StrOf(text) + "' not found"))])), [])
  {
  }

  /** A click on text whose screen capture raises clicks nothing; the exception propagates. */
  lemma ClickTextCaptureFails(env: Env, c: Command, es: seq<(string, Value)>, text: Value)
    requires c.action == Str("click") && c.parameters == Dict(es)
    requires Dicts.Lookup(es, "text") == Some(text) && env.findText(text).Err?
    ensures ExecuteCommand(env, c) == Executed(Err(env.findText(text).error), [])
  {
  }

  /** A click on text that is found clicks the first match, and only it. */
  lemma ClickTextFound(env: Env, c: Command, es: seq<(string, Value)>, text: Value)
    requires c.action == Str("click") && c.parameters == Dict(es)
    requires Dicts.Lookup(es, "text") == Some(text) && env.findText(text).Ok? && env.findText(text).value != []
    ensures
      var first := env.findText(text).value[0];
      && ExecuteCommand(env, c).effects == [Click(first.x, first.y)]
      && (env.click(first.x, first.y).None? ==> ExecuteCommand(env, c).result == Ok(Dict([("clicked", text)])))
      && (env.click(first.x, first.y).Some? ==> ExecuteCommand(env, c).result == Err(env.click(first.x, first.y).value))
  {
  }

  /** type writes its text and reports it; without a text it is the KeyError and writes nothing. */
  lemma TypeText(env: Env, c: Command, es: seq<(string, Value)>)
    requires c.action == Str("type") && c.parameters == Dict(es)
    ensures Dicts.Lookup(es, "text").Some? ==>
      var text := Dicts.Lookup(es, "text").value;
      ExecuteCommand(env, c) == Executed(Then(env.write(text, TypeInterval), Dict([("typed", text)])), [Write(text)])
    ensures Dicts.Lookup(es, "text").None? ==> ExecuteCommand(env, c) == Executed(Err(ReprStr("text")), [])
  {
  }

  /** open_url opens its url and reports it; without a url it is the KeyError and opens nothing. */
  lemma OpenUrl(env: Env, c: Command, es: seq<(string, Value)>)
    requires c.action == Str("open_url") && c.parameters == Dict(es)
    ensures Dicts.Lookup(es, "url").Some? ==>
      var url := Dicts.Lookup(es, "url").value;
      ExecuteCommand(env, c) == Executed(Then(env.openBrowser(url), Dict([("opened_url", url)])), [OpenBrowser(url)])
    ensures Dicts.Lookup(es, "url").None? ==> ExecuteCommand(env, c) == Executed(Err(ReprStr("url")), [])
  {
  }

  /** The success response of process_command. */
  function Accepted(c: Command, result: Value): Value {
    Dict([("success", Bool(true)), ("action", c.action), ("result", result), ("message", Str("Command executed successfully"))])
  }

  /** The failure response of process_command. */
  function Rejected(message: string): Value {
    Dict([("success", Bool(false)), ("error", Str(message)), ("message", Str("Failed to process command"))])
  }

  /** The dict get_command_history makes of one command. */
  function HistoryEntry(c: Command): Value {
    Dict([("action", c.action), ("parameters", c.parameters), ("text", Str(c.rawText))])
  }

  /** get_command_history's comprehension, in history order. */
  function HistoryView(history: seq<Command>): (r: seq<Value>)
    ensures |r| == |history|
    ensures forall i :: 0 <= i < |history| ==> r[i] == HistoryEntry(history[i])
  {
    if history == [] then [] else [HistoryEntry(history[0])] + HistoryView(history[1..])
  }

  /** Recording one more command adds one entry at the end of the history view. */
  lemma {:induction false} HistoryViewAppend(history: seq<Command>, c: Command)
    ensures HistoryView(history + [c]) == HistoryView(history) + [HistoryEntry(c)]
  {
    var l := HistoryView(history + [c]);
    var r := HistoryView(history) + [HistoryEntry(c)];
    assert |l| == |r|;
    forall i | 0 <= i < |l| ensures l[i] == r[i] {
      assert (history + [c])[i] == if i < |history| then history[i] else c;
    }
  }

  class CommandProcessor {
    var history: seq<Command>

    constructor ()
      ensures history == []
    {
      history := [];
    }

    /**
     * process_command: the command is recorded exactly when it was parsed and
     * ran without raising; every exception becomes the failure response.
     */
    method ProcessCommand(env: Env, parsed: Result<Command>) returns (response: Value, effects: seq<Effect>)
      modifies this
      ensures parsed.Err? ==> response == Rejected(parsed.error) && effects == [] && history == old(history)
      ensures parsed.Ok? ==>
        var run := ExecuteCommand(env, parsed.value);
        && effects == run.effects
        && (run.result.Ok? ==> response == Accepted(parsed.value, run.result.value) && history == old(history) + [parsed.value])
        && (run.result.Err? ==> response == Rejected(run.result.error) && history == old(history))
    {
      effects := [];
      if parsed.Err? {
        return Rejected(parsed.error), [];
      }
      var command := parsed.value;
      var run := ExecuteCommand(env, command);
      effects := run.effects;
      if run.result.Err? {
        return Rejected(run.result.error), effects;
      }
      history := history + [command];
      response := Accepted(command, run.result.value);
    }

    function GetCommandHistory(): (r: seq<Value>)
      reads this
      ensures |r| == |history|
      ensures forall i :: 0 <= i < |history| ==> r[i] == HistoryEntry(history[i])
    {
      HistoryView(history)
    }
  }
}
