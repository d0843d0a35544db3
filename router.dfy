/**
 * ModelRouter: send vision-looking prompts (or any prompt with an image) to
 * the vision model and everything else to the text model, with a fixed
 * system prompt. The model server's generate() is the `generate` parameter.
 */
module Router {
  import opened Wrappers
  import opened Values
  import Text
  import Dicts

  const VisionModel := "qwen:2.5"
  const TextModel := "dolphin3"

  const VisionKeywords := [
    "see", "look", "show", "image", "picture", "screen",
    "describe", "what is in", "what's in", "visual"]

  /** The system prompt route_task sends: each line after the first keeps the source's 12-space indent. */
  const Indent := "            "
  const SystemPrompt :=
    "You are Kalki, an AI assistant that can control the computer.\n"
    + Indent + "You can perform tasks like:\n"
    + Indent + "- Opening applications and URLs\n"
    + Indent + "- Clicking UI elements\n"
    + Indent + "- Typing text\n"
    + Indent + "- Running safe system commands\n"
    + Indent + "\n"
    + Indent + "When asked to perform an action, respond with:\n"
    + Indent + "<action>command_type:details</action>\n"
    + Indent + "\n"
    + Indent + "Example actions:\n"
    + Indent + "<action>open_url:https://google.com</action>\n"
    + Indent + "<action>click:Login Button</action>\n"
    + Indent + "<action>type:Hello World</action>\n"
    + Indent + "<action>command:ls -l</action>\n"
    + Indent

  /** The image path is truthy: given and not empty. */
  predicate HasImage(imagePath: Option<string>) {
    imagePath.Some? && imagePath.value != ""
  }

  /** choose_model(prompt, image_path). */
  function ChooseModel(prompt: string, imagePath: Option<string>): (model: string)
    ensures model == VisionModel || model == TextModel
    ensures model == VisionModel <==>
      HasImage(imagePath) || exists i :: 0 <= i < |VisionKeywords| && Text.Contains(Text.Lower(prompt), VisionKeywords[i])
  {
    if HasImage(imagePath) || Text.ContainsAny(Text.Lower(prompt), VisionKeywords) then VisionModel else TextModel
  }

  /** A prompt that mentions a vision keyword in any letter case goes to the vision model. */
  lemma {:induction false} VisionKeywordRoutes(prompt: string, pre: string, k: nat, post: string, imagePath: Option<string>)
    requires k < |VisionKeywords| && Text.Lower(prompt) == pre + VisionKeywords[k] + post
    ensures ChooseModel(prompt, imagePath) == VisionModel
  {
    var t := Text.Lower(prompt);
    var kw := VisionKeywords[k];
    assert t[|pre|..|pre| + |kw|] == kw;
    Text.ContainsAt(t, kw, |pre|);
  }

  /** The call route_task makes: generate(prompt=, model=, system=, image_path=, **kwargs). */
  datatype Request = Request(prompt: string, model: string, system: string, imagePath: Option<string>, extra: Kwargs)

  /**
   * The arguments route_task names in its call that an extra keyword can
   * repeat; "prompt" and "image_path" never reach **kwargs, since they bind
   * route_task's own parameters.
   */
  const NamedArguments := ["model", "system"]

  /** The first extra keyword that repeats a named argument, which makes the call a TypeError. */
  function Repeated(extra: Kwargs): (r: Option<string>)
    ensures r.Some? ==> r.value in NamedArguments && r.value in Dicts.Keys(extra)
    ensures r.None? ==> forall n :: n in NamedArguments ==> n !in Dicts.Keys(extra)
  {
    if extra == [] then None
    else if extra[0].0 in NamedArguments then Some(extra[0].0)
    else Repeated(extra[1..])
  }

  /**
   * The TypeError CPython (3.9 and later) raises while merging `**kwargs` into
   * a call that already names `k`; the callee is given by module and qualified name.
   */
  function DuplicateKeyword(k: string): string {
    "model_handler.ModelHandler.generate() got multiple values for keyword argument '" + k + "'"
  }

  /** route_task: forward to generate with the chosen model; every failure is re-raised. */
  function RouteTask(prompt: string, imagePath: Option<string>, extra: Kwargs, generate: Request -> Result<Value>): (r: Result<Value>)
    requires "prompt" !in Dicts.Keys(extra) && "image_path" !in Dicts.Keys(extra)
    ensures Repeated(extra).None? ==>
      r == generate(Request(prompt, ChooseModel(prompt, imagePath), SystemPrompt, imagePath, extra))
    ensures Repeated(extra).Some? ==>
      r == Err(DuplicateKeyword(Repeated(extra).value))
  {
    var model := ChooseModel(prompt, imagePath);
    match Repeated(extra)
    case Some(k) => Err(DuplicateKeyword(k))
    case None => generate(Request(prompt, model, SystemPrompt, imagePath, extra))
  }
}
