/**
 * The operating-system collaborators of the core, as abstract outcomes:
 * pyautogui, subprocess, webbrowser, the OCR text finder and text-to-speech.
 * None of them is modelled beyond what it returns and whether it raises.
 */
module Desktop {
  import opened Wrappers
  import opened Values

  /** None when the call returned normally; Some(message) when it raised. */
  type Fault = Option<string>

  /** A screen search: a (truthy) location, no match, or an exception. */
  datatype Located = Located(location: Value) | NotLocated | LocateRaised(message: string)

  /** What subprocess.run hands back, or the exception it raised. */
  datatype Completed = Completed(stdout: string, stderr: string, returnCode: int) | RunRaised(message: string)

  /** One box found by the OCR text search (vision.find_text_on_screen). */
  datatype TextBox = TextBox(x: Value, y: Value)

  /** A side effect the core asks for, in the order it asks. */
  datatype Effect =
    | Click(x: Value, y: Value)
    | Write(text: Value)
    | OpenBrowser(url: Value)
    | Spawn(app: Value)
    | RunProcess(argv: seq<string>)
    | RunShell(command: string)

  datatype Env = Env(
    click: (Value, Value) -> Fault,          // pyautogui.click(x, y)
    clickAt: Value -> Fault,                 // pyautogui.click(location)
    write: (Value, Value) -> Fault,          // pyautogui.write(text, interval)
    press: Value -> Fault,                   // pyautogui.press(key)
    locateCenter: Value -> Located,          // pyautogui.locateCenterOnScreen(image, confidence=0.9)
    locate: Value -> Located,                // pyautogui.locateOnScreen(image, confidence=0.9)
    center: Value -> Value,                  // pyautogui.center(box)
    openBrowser: Value -> Fault,             // webbrowser.open(url)
    spawn: Value -> Fault,                   // subprocess.Popen([app])
    run: seq<string> -> Completed,           // subprocess.run(argv, capture_output=True, timeout=30)
    shell: string -> Completed,              // subprocess.run(command, shell=True, ...)
    findText: Value -> Result<seq<TextBox>>, // vision.find_text_on_screen(text): raises when the screen grab does; OCR errors give []
    say: string -> Fault                     // the text-to-speech engine
  )
}
