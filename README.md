# Kalki desktop assistant: a verified model of its core

Kalki is a desktop assistant. A language model decides what to do, and the
assistant carries it out on the desktop. This project models in Dafny the parts
of Kalki that make decisions, and proves properties of that model:

- **The ReAct agent loop** (`Agent`). It asks the model, classifies each reply
  as a planning, action or reflection thought, and then does one of three things:
  - **plan:** runs every line of a second reply as a sub-task of its own;
  - **act:** dispatches the one fixed click action to the plugin registry and
    records an observation of the result;
  - **reflect:** decides whether the task is complete.

  It repeats this until the task is complete or `max_steps` rounds have run.
- **The plugin registry** (`Plugins`). It is a name-to-plugin dict with
  last-writer-wins registration, and every invocation returns a success/data/error
  envelope.
- **The ui_automation plugin** (`UIAutomation`), which clicks, types and finds on
  the screen.
- **The intent parser** (`IntentParser`). It cuts the JSON object out of a model
  reply, checks the required fields, and falls back to an "error" intent.
- **The dotted-key configuration tree** (`Config`).
- **The command processor** (`Commands`): dispatch on the action, plus the
  history of the commands that ran.
- **The model router** (`Router`): chooses the vision or the text model and
  makes the generate call.
- **The two desktop action engines**, each with its own safe-mode command
  screen and guards:
  - `ActionEngine`, for `action_engine.py`;
  - `Actions`, for the older `actions.py`.

The support modules hold values, not behaviour:

- `Values` models Python's dynamic values. It covers truthiness, `repr`/`str`,
  and `v[k]` together with the exact KeyError/TypeError messages.
- `Dicts` models insertion-ordered dicts as association lists.
- `Text` holds string functions: `lower`, `in`, `find`, `split`, `join`.
- `Desktop` models the operating system as abstract outcomes:
  - pyautogui, subprocess, webbrowser, the OCR text search and text-to-speech are
    function fields of `Desktop.Env`;
  - each call either returns or raises with a message (the OCR text search raises when its screen grab does, and its own OCR errors give no match);
  - the side effects the core asks for are listed as `Effect`s.

The model is built to match the code:

- An exception is an `Err`/`Some(message)` path.
- Each model client is a script of replies, one consumed per `generate()` call,
  and an `Unavailable` entry is `generate()` raising.
- Where the code keeps state in objects, the model uses classes:
  - `TaskState` fields;
  - the registry's dict;
  - the configuration tree;
  - the command history;
  - the model client's remaining replies.
- Each class method is proved against the functions that specify it. For
  example, `AgentLoop.ExecuteTask` computes exactly `RunTask` on the reply script.

## Model

| member | source | states |
|---|---|---|
| Agent.Think | kalki/core/agent/loop.py:80-93 | The thought keeps the raw reply. It is never an observation. It is planning iff the lower-cased reply contains "plan", and action selection iff it contains "action" but not "plan"; otherwise it is a reflection. |
| Agent.PlanSubtasks | kalki/core/agent/loop.py:95-100 | The sub-goals are the lines of the reply: at least one, none holding a line break, and joined by '\n' they give back the reply. |
| Agent.SelectAction | kalki/core/agent/loop.py:102-115 | An action is chosen iff the lower-cased reply contains "click", and it is always the ui_automation click at (100, 100). |
| Agent.Observe | kalki/core/agent/loop.py:117-127 | The thought is an observation. Its text is "No observation available" exactly when there is no result. Otherwise it is "Action succeeded: " or "Action failed: ", according to the result's success. Then comes the error when it is set and non-empty, else str(data). |
| Agent.IncompleteCompletes | kalki/core/agent/loop.py:129-134 | A reflection reply mentioning "incomplete" marks the task complete, because it contains "complete". |
| Agent.Reflect | kalki/core/agent/loop.py:129-134 | The verdict completes the task exactly when "complete" occurs at some position of the lower-cased reply. |
| Agent.Act | kalki/core/agent/loop.py:57-70 | Dispatch keeps the goal and `completed`. Without a selected action the state is unchanged. With one, the last action and result are paired: the click and its dispatch result. The observation of that result is then appended. |
| Agent.RunTask | kalki/core/agent/loop.py:41-78 | execute_task from a fresh state: never uses more replies than the script holds. A non-positive budget returns the fresh state after no rounds and with the script untouched. Its other properties are in the Loop lemmas and RunTaskBounds. |
| Agent.Loop | kalki/core/agent/loop.py:46-76 | The while loop from a given state and step count never uses more replies than the script holds. Its properties are in LoopSteps, LoopThoughts, LoopCompletes and LoopPaired. |
| Agent.Body | kalki/core/agent/loop.py:47-75 | One round either stops on an empty script or uses up at least one reply. |
| Agent.RunSubtasks | kalki/core/agent/loop.py:53-55 | The sub-goals run in order, each as a task of its own, and never use more replies than the script holds. The first sub-task that raises stops the round. |
| Agent.BodyRound | kalki/core/agent/loop.py:46-76 | A completed round consumes two replies, keeps the goal and appends the think thought. It appends an observation only after a dispatched action, whose action and result are then the click and its dispatch result. Only a reflection round writes `completed`; otherwise the last action and result are unchanged. |
| Agent.BodyConsumes | kalki/core/agent/loop.py:46-76 | A round that goes on has used at least the think reply and the reply after it. |
| Agent.BodyPaired | kalki/core/agent/loop.py:59-66 | A round keeps the last action and the last result paired: both unset, or the click and the result of dispatching it. |
| Agent.BodyReflects | kalki/core/agent/loop.py:46-76 | A round adds at least one thought. A round that marks the task complete ends on its reflection thought. |
| Agent.LoopSteps | kalki/core/agent/loop.py:46-76 | A completed state runs no round. A run that returns stays within the budget and ends either completed or with the budget spent. Each round consumes at least two replies. |
| Agent.LoopThoughts | kalki/core/agent/loop.py:46-76 | A run that returns keeps the goal and only appends thoughts, at most two per round. |
| Agent.LoopCompletes | kalki/core/agent/loop.py:46-76 | A run that becomes complete ends on a reflection thought. |
| Agent.LoopPaired | kalki/core/agent/loop.py:59-66 | From a paired state, a run that returns ends with the last action and result still paired. |
| Agent.RunTaskBounds | kalki/core/agent/loop.py:41-78 | execute_task runs at most max(0, max_steps) rounds. It returns completed or after exactly that many rounds, with at most 2·steps thoughts and the action/result pairing. A non-positive budget returns the fresh state without asking the model. |
| Agent.CompletesInOneRound | kalki/core/agent/loop.py:46-76 | A reflection reply followed by a verdict containing "complete" ends the task in exactly one step, with one reflection thought. |
| Agent.RunsOutBudget | kalki/core/agent/loop.py:46-76 | A model that only reflects without reporting completion makes the loop run exactly max_steps rounds and return not completed. |
| Agent.OneLinePlan | kalki/core/agent/loop.py:100 | A reply without a line break plans exactly one sub-goal, the reply itself. |
| Agent.SubgoalBudgetNotShared | kalki/core/agent/loop.py:51-55 | With max_steps = 1, a planning round gives its sub-goal the same budget of 1 (max_steps - steps). The one-step task therefore consumes four replies, and the child's state is discarded. |
| Agent.ModelClient.Generate | kalki/core/agent/loop.py:84 | Returns the next reply and removes it from the script. On an empty script it raises and the script stays empty (Ask, the function it is proved against). |
| Agent.TaskState.constructor | kalki/core/agent/loop.py:24-34 | A new state has the goal, is not completed, has no thoughts and has no last action or result. |
| Agent.AgentLoop.constructor | kalki/core/agent/loop.py:37-39 | available_plugins is the registry's listing at construction time. |
| Agent.AgentLoop.ExecuteTask | kalki/core/agent/loop.py:41-78 | The loop computes RunTask on the reply script. On return the state is the one RunTask describes. When a generate() raises, that message is the error. In both cases the script is left as RunTask leaves it. |
| Agent.AgentLoop.Round | kalki/core/agent/loop.py:47-74 | One pass of the loop body leaves the state and the script as Body describes, or returns the message of the generate() that raised. |
| Agent.AgentLoop.RunPlan | kalki/core/agent/loop.py:53-55 | Runs each sub-goal as its own task with the given budget. The sub-tasks' states are dropped, and the first exception stops the loop and is returned. |
| Plugins.Registered | kalki/core/plugins/base.py:47 | Storing a plugin under its name keeps the table well formed: unique names, each entry under its own plugin's name. |
| Plugins.Listing | kalki/core/plugins/base.py:54-59 | One {name, description} per entry, in registration order. |
| Plugins.RegisterThenGet | kalki/core/plugins/base.py:43-52 | After register(p), get_plugin(p.name) is p: the last writer wins. |
| Plugins.RegisterKeepsOthers | kalki/core/plugins/base.py:43-52 | register(p) leaves the plugin of every other name unchanged. |
| Plugins.RegisterListingOverwrite | kalki/core/plugins/base.py:45-47 | Re-registering a name keeps the listing's length and order and replaces only that entry. |
| Plugins.RegisterListingNew | kalki/core/plugins/base.py:43-59 | Registering a new name appends it at the end of the listing. |
| Plugins.ExecuteUnknown | kalki/core/plugins/base.py:63-69 | An unknown name gives the failed result "Plugin <name> not found", and no handler runs. |
| Plugins.Execute | kalki/core/plugins/base.py:61-79 | execute_plugin: a name that is not registered gives "Plugin <name> not found". A successful result only ever comes from a registered plugin that returned it. |
| Plugins.ExecuteRegistered | kalki/core/plugins/base.py:71-79 | A registered plugin's result is returned unchanged. An exception it raises becomes a failed result with the message and no data. |
| Plugins.PluginRegistry.constructor | kalki/core/plugins/base.py:33-41 | The registry starts empty and well formed. |
| Plugins.PluginRegistry.Register | kalki/core/plugins/base.py:43-48 | The overwrite warning is logged iff the name was taken. Afterwards the name maps to p and every other name is unchanged. |
| Plugins.PluginRegistry.GetPlugin | kalki/core/plugins/base.py:50-52 | A plugin is found iff the name is registered. |
| Plugins.PluginRegistry.ListPlugins | kalki/core/plugins/base.py:54-59 | One {name, description} per registered plugin, in registration order. |
| Plugins.PluginRegistry.ExecutePlugin | kalki/core/plugins/base.py:61-79 | For an unknown name it reports "not found". Otherwise it returns the handler's result, or a failed result carrying the handler's exception message. |
| UIAutomation.HandleClick | kalki/core/plugins/ui_automation.py:44-78 | Every result it returns is a well-formed envelope: a success has no error, and a failure has an error and no data. Only a failing click at coordinates raises out of it. Without both coordinates, a truthy image behaves as follows. If locating it raises, or clicking the located centre raises, the result is "Failed to find image: <e>". If the click works, the result is a success carrying {"location": loc}. |
| UIAutomation.HandleType | kalki/core/plugins/ui_automation.py:80-95 | Every result it returns is a well-formed envelope. A falsy text gives "No text specified". Otherwise the text is written with the given interval, 0.1 by default. A successful write reports {"text": text}, and a raising write raises out of the handler. |
| UIAutomation.HandleFind | kalki/core/plugins/ui_automation.py:97-124 | The result is a well-formed envelope. A falsy image gives "No image specified". Otherwise a located centre gives a success carrying {"location": loc}, a miss gives "Element not found", and an exception gives "Failed to find element: <e>". |
| UIAutomation.Execute | kalki/core/plugins/ui_automation.py:14-42 | The result is always a well-formed envelope. No action gives "No action specified", and a success comes only from click, type or find. |
| UIAutomation.AsPlugin | kalki/core/plugins/ui_automation.py:6-14 | The plugin is named "ui_automation", and its execute never raises: every exception becomes a failed result. |
| UIAutomation.UnknownAction | kalki/core/plugins/ui_automation.py:31-36 | Any other action is refused with "Unknown action: <action>". |
| UIAutomation.ClickAtCoordinates | kalki/core/plugins/ui_automation.py:46-54 | With both x and y present (0 included), it clicks there and reports them; a failing click gives a failure with its message. |
| UIAutomation.ClickWithoutTarget | kalki/core/plugins/ui_automation.py:56-78 | Without coordinates, and with no image or an image that is not found, the result is "No valid click target specified". |
| UIAutomation.ClickImage | kalki/core/plugins/ui_automation.py:56-72 | Without both coordinates, a truthy image is located and its centre clicked and reported as {"location": loc}. An exception while locating or clicking gives "Failed to find image: <e>". |
| UIAutomation.TypeText | kalki/core/plugins/ui_automation.py:80-95 | A missing or empty text gives "No text specified". Otherwise the text is written with the given interval (0.1 by default) and reported. A write that raises becomes a failure with its message, through the catch of execute (lines 37-42). |
| UIAutomation.FindImage | kalki/core/plugins/ui_automation.py:97-124 | A missing image gives "No image specified". An image not on screen gives "Element not found". A located one is reported as {"location": loc}, and an exception as "Failed to find element: <e>". |
| Wiring.AgentClickReachesPlugin | kalki/core/agent/loop.py:59-66 | With the ui_automation plugin registered, the agent's action clicks at (100, 100). It succeeds with {x: 100, y: 100}, or fails with the click's exception message. |
| IntentParser.JsonText | kalki/core/intent_parser.py:85-90 | It fails with "No JSON structure found in response" iff the reply lacks a '{' or a '}'. Otherwise it cuts from the first '{' through the last '}', or nothing when the last '}' comes first. |
| IntentParser.ParseResponse | kalki/core/intent_parser.py:81-95 | Both the structure error and the decoder's error propagate; otherwise the result is the decoded cut-out. |
| IntentParser.ValidateIntent | kalki/core/intent_parser.py:97-100 | Valid iff "action" and "parameters" are both keys. |
| IntentParser.ContextOrEmpty | kalki/core/intent_parser.py:22 | A falsy context becomes {}; a truthy one is kept. |
| IntentParser.Parse | kalki/core/intent_parser.py:20-55 | The intent always carries the original text. |
| IntentParser.RefineIntent | kalki/core/intent_parser.py:102-109 | Returns the intent unchanged. |
| IntentParser.ParseValid | kalki/core/intent_parser.py:38-44 | A valid object becomes its intent. Action and parameters are copied. Context defaults to {} and confidence to 0.0, each only when absent. |
| IntentParser.ErrorIntent | kalki/core/intent_parser.py:46-55 | The fallback intent: action "error" and parameters whose "error" entry is the message, with the given context and text and confidence 0.0. |
| IntentParser.ParseFails | kalki/core/intent_parser.py:27-55 | A generate() exception, a parse error and a missing required field each give the "error" intent with that message, the defaulted context and confidence 0.0. |
| IntentParser.NoBraces | kalki/core/intent_parser.py:85-88 | A reply without '{' or '}' gives the "No JSON structure found in response" error intent. |
| IntentParser.BracesReversed | kalki/core/intent_parser.py:85-91 | When every '}' precedes the first '{', the empty text is decoded. json.loads fails on it with "Expecting value: line 1 column 1 (char 0)" (Loads), giving that error intent. |
| IntentParser.CutOutIsDecoded | kalki/core/intent_parser.py:85-91 | What is decoded is exactly the text from the first '{' through the last '}'. |
| Config.Path | kalki/config/config_manager.py:30-38 | A dotted key has at least one segment. |
| Config.PathSet | kalki/config/config_manager.py:36-42 | A successful set leaves a dict, and it succeeds only on a dict. |
| Config.SetSucceedsIff | kalki/config/config_manager.py:39-42 | set succeeds exactly when every existing value on the path above the leaf, the root included, is a dict. |
| Config.PathGet | kalki/config/config_manager.py:26-34 | The empty path reads the root. A lookup below it succeeds only through a dict that holds the first segment. |
| Config.DictPath | kalki/config/config_manager.py:38-42 | A dict path starts at a dict. For an undotted key, being a dict is all it needs. |
| Config.EmptyIsDictPath | kalki/config/config_manager.py:41 | A fresh {} made by setdefault admits any remaining path. |
| Config.GetAfterSet | kalki/config/config_manager.py:26-42 | After set(k, x) succeeds, get(k) is x. |
| Config.SetLeavesOthers | kalki/config/config_manager.py:36-42 | set(k, x) changes no value off its path: a path that leaves k's path at some segment reads what it read before. |
| Config.PathGetStep | kalki/config/config_manager.py:29-31 | One step of get: a dict holding the segment descends; anything else fails. |
| Config.AbsentPath | kalki/config/config_manager.py:29-34 | Below a fresh {}, every get fails. |
| Config.SetOnDicts | kalki/config/config_manager.py:36-42 | When the path holds only dicts, set succeeds and get reads back x. |
| Config.SingleSegment | kalki/config/config_manager.py:26-42 | A key without '.' addresses the top level directly, for both get and set. |
| Config.SetIdempotent | kalki/config/config_manager.py:36-42 | Setting the same key to the same value twice is setting it once. |
| Config.PutPut | kalki/config/config_manager.py:42 | A second assignment to the same dict key overwrites the first. |
| Config.Wrap | kalki/config/config_manager.py:39-42 | Storing each updated dict back into its parent keeps a failure as it is and a success a dict. |
| Config.WrapSnoc | kalki/config/config_manager.py:40-41 | Descending one more level adds one dict at the bottom of the trail. |
| Config.ConfigManager.constructor | kalki/config/config_manager.py:16-24 | The tree is whatever loading produced. |
| Config.ConfigManager.Get | kalki/config/config_manager.py:26-34 | The loop returns the value at the dotted path, or the default when some `value[k]` raises. |
| Config.ConfigManager.Set | kalki/config/config_manager.py:36-42 | On success the tree is the one PathSet describes. When setdefault or the assignment raises, that message is the error and the tree is unchanged. |
| Commands.Member | kalki/modules/commands.py:89 | `"text" in parameters` tests the keys of a dict, the items of a list or tuple, and the substrings of a str. Anything else raises "argument of type '…' is not iterable", and only that does. |
| Commands.ExecuteClick | kalki/modules/commands.py:88-103 | A click performs at most one desktop click. |
| Commands.ExecuteCommand | kalki/modules/commands.py:79-110 | At most one effect. An unknown action raises "Unknown action: <action>" and does nothing. Every result is a one-entry dict. |
| Commands.ClickTextNotFound | kalki/modules/commands.py:89-96 | Text not found on screen gives {"error": "Text '<text>' not found"} and clicks nothing. |
| Commands.ClickTextCaptureFails | kalki/modules/commands.py:89-96 | When the screen capture behind the text search raises, the exception propagates out of the dispatch and nothing is clicked. |
| Commands.ClickTextFound | kalki/modules/commands.py:89-95 | Found text clicks its first match only, and reports {"clicked": text} or the exception of the click (Then). |
| Commands.TypeText | kalki/modules/commands.py:105-107 | type writes its text and reports it; without a text it is the KeyError and writes nothing. |
| Commands.OpenUrl | kalki/modules/commands.py:84-86 | open_url opens its url and reports it; without a url it is the KeyError and opens nothing. |
| Commands.HistoryView | kalki/modules/commands.py:112-121 | One {action, parameters, text} per command, in history order. |
| Commands.HistoryViewAppend | kalki/modules/commands.py:112-121 | Recording a command adds exactly one entry at the end of the history view. |
| Commands.CommandProcessor.constructor | kalki/modules/commands.py:19-23 | The history starts empty. |
| Commands.CommandProcessor.ProcessCommand | kalki/modules/commands.py:25-50 | A command is appended to the history exactly when it parsed and ran without raising, and the response says so. Every exception gives the failure response with its message and leaves the history unchanged. |
| Commands.CommandProcessor.GetCommandHistory | kalki/modules/commands.py:112-121 | One {action, parameters, text} per recorded command, in order. |
| Router.ChooseModel | router.py:16-20 | The model is "qwen:2.5" iff an image path is given or the lower-cased prompt contains a vision keyword; otherwise it is "dolphin3". |
| Router.VisionKeywordRoutes | router.py:11-20 | A prompt mentioning a vision keyword, in any letter case, goes to the vision model. |
| Router.Repeated | router.py:56-62 | Finds the first extra keyword that repeats "model" or "system"; none means no extra keyword does. |
| Router.RouteTask | router.py:22-66 | generate receives the prompt, the chosen model, the fixed system prompt, the image path and the extra keywords. An extra "model" or "system" keyword is CPython's duplicate-keyword TypeError, naming model_handler.ModelHandler.generate. The failure of generate itself is re-raised. |
| ActionEngine.Argv | action_engine.py:45-68 | The program runs as [command] + args, with args None meaning []. |
| ActionEngine.FirstMatch | action_engine.py:58-63 | The screening loop finds the first pattern that is a plain substring of the command, or -1 iff none is. |
| ActionEngine.ExecuteCommand | action_engine.py:45-80 | In safe mode a command containing a pattern is refused with "Potentially dangerous command detected: <command>", and nothing runs. Otherwise [command] + args runs, and its output, return code or exception is reported; with safe mode off, nothing is screened. This is the screen as written. |
| ActionEngine.RunResponse | action_engine.py:65-80 | Reports success exactly when the process ran. A run reports its stdout, stderr and return code; an exception reports its message. |
| ActionEngine.CommandLine | action_engine.py:67 | The screened line begins with the command, and it is the command itself when there are no arguments. |
| ActionEngine.DangerousLine | action_engine.py:52-59 | The intended screen refuses everything the written screen refuses on the whole command line. |
| ActionEngine.DangerousLineCoversCommand | action_engine.py:58-59 | Every command the written screen refuses is refused by the intended one. |
| ActionEngine.DangerousLineCoversArgs | action_engine.py:47-67 | The intended screen also refuses a pattern inside any argument. |
| ActionEngine.SudoRefused | action_engine.py:55 | The intended screen refuses a line starting with "sudo". |
| ActionEngine.SuRefused | action_engine.py:55 | The intended screen refuses "su" followed by an argument. |
| ActionEngine.ShortCommandsPass | action_engine.py:52-59 | No pattern is a substring of "sudo" or of "rm". |
| ActionEngine.SudoRmRunsInSafeMode | action_engine.py:50-67 | As written, "sudo" with arguments rm -rf / passes the safe-mode screen; the intended screen refuses it. |
| ActionEngine.OpenUrl | action_engine.py:82-88 | Reports "Opened URL: <url>", or the browser's exception message. |
| ActionEngine.MouseClick | action_engine.py:90-99 | Without pyautogui it reports "PyAutoGUI not available". Otherwise it clicks and reports "Clicked at (x, y)", or the failure with the exception's message. |
| ActionEngine.TypeText | action_engine.py:101-110 | Without pyautogui it reports "PyAutoGUI not available". Otherwise it writes and reports "Typed text: <text>", or the failure with the exception's message. |
| ActionEngine.PressKey | action_engine.py:112-121 | Without pyautogui it reports "PyAutoGUI not available". Otherwise it presses and reports "Pressed key: <key>", or the failure with the exception's message. |
| ActionEngine.SpeakText | action_engine.py:123-133 | Without a speech engine it reports "Text-to-speech not available". Otherwise it reports "Spoke text successfully", or the failure with the exception's message. |
| ActionEngine.FindOnScreen | action_engine.py:135-151 | Without pyautogui it reports "PyAutoGUI not available". An image that is not found gives "Image not found on screen", and a found one gives its box and centre. An exception gives the failure with its message. |
| ActionEngine.Unpack4 | action_engine.py:159 | Unpacking into x, y, w, h gives four values, and a four-element list or tuple unpacks to its items. |
| ActionEngine.Centre | action_engine.py:160-161 | With int operands r = base + extent // 2, where // is floor division (2·(r − base) ≤ extent < 2·(r − base) + 2). Non-int operands give the TypeError. |
| ActionEngine.ClickElement | action_engine.py:153-165 | Without pyautogui it reports "PyAutoGUI not available". |
| ActionEngine.ClickElementCentre | action_engine.py:159-163 | Integer bounds (x, y, w, h) are clicked at (x + w // 2, y + h // 2). |
| ActionEngine.ClickElementMalformed | action_engine.py:158-165 | Element info without "bounds", or with bounds that are not four values, gives the failure with the exception message. It is not a click. |
| Actions.IsSafeUrl | actions.py:17-20 | Safe iff the parsed scheme and network location are both non-empty; a parse error propagates. |
| Actions.OpenUrl | actions.py:22-33 | The browser is opened iff the URL is safe, and then the result is whether it returned normally. An unsafe URL gives False and nothing opens. |
| Actions.RunCommand | actions.py:35-55 | In safe mode a command whose lower-cased text contains rm, del, format, mkfs or the fork bomb gives None, and nothing runs. Otherwise the shell runs it, giving its stdout, or None on an exception (StdoutOf). A stdout only comes from a completed run. |
| Actions.FirmwareRefused | actions.py:39-40 | The screen is a substring test: "firmware" is refused because it contains "rm". |
| Actions.RefusedWithin | actions.py:39-40 | A command containing a listed word anywhere, in any letter case, is refused. |
| Actions.Refused | actions.py:37-40 | The screen refuses a command exactly when some listed word occurs in its lower-cased text. |
| Text.Lower | kalki/core/agent/loop.py:88 | Lower-cases each character in place; the length is unchanged. |
| Text.ContainsAny | router.py:18 | `any(k in s for k in ks)` holds iff some listed text occurs in s. |
| Text.Find | kalki/core/intent_parser.py:85 | str.find: -1 iff the character is absent; otherwise its first index. |
| Text.RFind | kalki/core/intent_parser.py:86 | str.rfind: -1 iff the character is absent; otherwise its last index. |
| Text.Split | kalki/core/agent/loop.py:100 | str.split(sep): at least one part, none containing sep. |
| Text.JoinSplit | kalki/core/agent/loop.py:100 | Joining the parts of a split with the separator gives back the text. |
| Text.SplitLength | kalki/core/agent/loop.py:100 | A split has one more part than there are separators. |
| Values.Index | kalki/config/config_manager.py:31 | A dict lookup succeeds iff the key is present, and then gives the stored value. A missing key is the KeyError repr(key); other types give their TypeError. |
| Values.Get | kalki/core/plugins/ui_automation.py:16 | kwargs.get(k) is None when k is absent, and otherwise the value stored under k. |
| Values.Truthy | kalki/core/intent_parser.py:22 | A value is false exactly when it is None, False, 0, 0.0 or -0.0, or an empty str, list, tuple or dict. |
| Values.StrOf | kalki/core/agent/loop.py:122 | str() of a str is the str itself. Apart from the empty str, str() is never empty. |
| Values.Repr | kalki/core/agent/loop.py:122 | repr() of a float is its own text, and of anything else it is non-empty. A str is between matching quotes, ' or ", and a list, tuple or dict between its own brackets. |

## Left out

- Agent.Ask: the oracle is a script of replies. Each generate() call takes the next reply, and the prompt builders are not modelled: `_create_thinking_prompt`, `_create_action_prompt`, `_create_reflection_prompt`, `_create_parsing_prompt`, and the prompt of `_parse_command`.
- Agent.RunTask: termination is measured by the length of the reply script, not by a fuel bound. Every round takes a reply, and a round with no reply left raises. An unbounded run of planning replies therefore just ends when the script does.
- Every `async`/`await` call is modelled as a plain sequential call. There is no concurrency, cancellation or event loop.
- `PluginRegistry` and `ConfigManager` are singletons. The model has one object of each, and class-level sharing of `_plugins` and `_config` between instances is not modelled.
- Python dicts whose keys are not strings, such as YAML integer keys, are not modelled. Every dict key is a `string`.
- Plugins.Execute: calling `execute_plugin(name, **kwargs)` with a keyword argument called `name` raises a duplicate-argument TypeError. That case is not modelled, and the agent never passes one.
- Text.Lower: ASCII letters only. Python's `str.lower` is Unicode-wide, so non-ASCII case folding is not modelled in the screens and keyword tests.
- Values.Repr: the escapes of non-printable and non-ASCII characters, and the repr of floats, which are carried as their text, are not modelled.
- ActionEngine.Centre: float bounds are not modelled. A float x, y, w or h is reported as the TypeError of a non-number, whereas Python would compute a float centre.
- ActionEngine.Unpack4: the messages follow CPython 3.11. Later versions add ", got N" to the "too many values" message. Iterables other than list, tuple, str and dict are not modelled.
- `pyautogui.FAILSAFE` and `PAUSE` and the speech engine's start-up are left out; whether pyautogui imported and whether a speech engine exists are the engine flags.
- `locateOnScreen`'s `confidence=0.9` is left out.
- ActionEngine.FindOnScreen: any returned location counts as found. The source tests `if location:`, but pyautogui returns a Box or Point named tuple, which is never falsy, or None, which is `NotLocated`. UIAutomation.HandleFind and UIAutomation.HandleClick treat `locateCenterOnScreen` the same way.
- The outcomes of pyautogui, webbrowser, subprocess (`timeout=30`), Popen, OCR search and text-to-speech are abstract `Desktop.Env` outcomes. The model does not give these libraries any further semantics.
- The desktop is time-invariant. Each `Desktop.Env` field, and each plugin in the table, is a fixed function of its arguments, so the same call gives the same outcome in every round. This is why `Agent.Paired` can name one result of the click, `Plugins.Execute(t, ClickAction…)`. A screen that changes between rounds is not modelled.
- Agent.RunTask: the default `max_steps=10` of execute_task is not a constant of the model. Every run takes its budget as an argument, and the callers that rely on the default are outside the core.
- IntentParser.Parse: the abstract decoder is taken to yield a dict, with no key repeated. `json.loads` keeps the last value of a repeated key, while `Dicts.Lookup` would read the first, so a decoded object with repeated keys is not modelled.
- `urlparse` is the abstract `parse` parameter of `Actions`, and `json.loads` on a non-empty text is the abstract decoder of `IntentParser`.
- YAML load and save of the configuration, the `print` of their errors, and all logging are left out. The only log modelled is the registry's overwrite warning, as the flag `Register` returns.
- Config.ConfigManager.Set: Python updates nested dicts in place. The model stores each updated dict back into its parent, so aliasing of a nested dict that is also held elsewhere is not modelled.
- Commands: `_parse_command`, which asks the Jan client and digs the command out of its answer, is the `parsed` parameter of `ProcessCommand`. Its exception is an `Err`.
- Commands: for `open_app`, the model records only whether the launch raised. How `kalki/modules/actions.py` launches applications is not part of this model.
- The `click_element`, `type_text`, `press_key`, `move_mouse` and `take_screenshot` methods of the top-level `actions.py` are not modelled. They are thin pyautogui wrappers that log instead of raising.
- Agent.AgentLoop.ExecuteTask: a task and its sub-goals do not share one step budget. The code gives each sub-goal the budget `max_steps - steps`, so at step 0 a sub-goal gets the parent's whole budget again. The model follows the code; SubgoalBudgetNotShared shows the difference.
- The HTTP model clients, OCR and screen capture, the tray UI and the entry points are outside the core.

## Findings

| source | as written | input that shows it | evidently intended | confidence | as-written member | corrected member |
|---|---|---|---|---|---|---|
| action_engine.py:52-67 | The safe-mode screen tests each pattern with `in`, on `command` only. The arguments are never screened, and "^sudo" and "^su\\s" are regular-expression anchors that a substring test never matches. | command "sudo" with args ["rm", "-rf", "/"] runs in safe mode. | Screen the whole command line, with "^sudo" and "^su\\s" as anchored patterns: a line starting with "sudo", or with "su" and a whitespace character. | not executed | ActionEngine.SudoRmRunsInSafeMode | ActionEngine.DangerousLine |
