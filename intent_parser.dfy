/**
 * IntentParser: ask the model for a JSON description of a command, cut the
 * JSON object out of the reply, check its required fields and build an
 * Intent; every failure becomes the "error" intent instead of an exception.
 *
 * model.generate(prompt) is the `reply` parameter (Err is an exception with
 * that message); json.loads is the abstract `decoder`, applied only to a text
 * that starts with '{', which a successful decode turns into a JSON object.
 */
module IntentParser {
  import opened Wrappers
  import opened Values
  import Text
  import Dicts

  /** The Intent dataclass; its fields hold whatever the JSON held. */
  datatype Intent = Intent(action: Value, parameters: Value, context: Value, confidence: Value, rawText: string)

  /** json.loads on a non-empty text: the members of the decoded object, or the error message. */
  type Decoder = string -> Result<seq<(string, Value)>>

  const NoJson := "No JSON structure found in response"
  const InvalidStructure := "Invalid intent structure"
  /** The message json.loads raises on an empty document. */
  const EmptyDocument := "Expecting value: line 1 column 1 (char 0)"
  const RequiredFields := ["action", "parameters"]

  /** json.loads: an empty document never decodes. */
  function Loads(decoder: Decoder, s: string): (r: Result<seq<(string, Value)>>)
    ensures s == [] ==> r == Err(EmptyDocument)
    ensures s != [] ==> r == decoder(s)
  {
    if s == [] then Err(EmptyDocument) else decoder(s)
  }

  /**
   * The text _parse_response decodes: from the first '{' through the last '}',
   * or nothing when the last '}' comes before the first '{'.
   */
  function JsonText(response: string): (r: Result<string>)
    ensures r.Err? <==> '{' !in response || '}' !in response
    ensures r.Err? ==> r.error == NoJson
    ensures r.Ok? ==>
      var i := Text.Find(response, '{');
      var j := Text.RFind(response, '}') + 1;
      && 0 <= i < |response| && 0 < j <= |response|
      && response[i] == '{' && '{' !in response[..i]
      && response[j - 1] == '}' && '}' !in response[j..]
      && r.value == (if i < j then response[i..j] else [])
  {
    var start := Text.Find(response, '{');
    var end := Text.RFind(response, '}') + 1;
    if start == -1 || end == 0 then Err(NoJson)
    else if start < end then Ok(response[start..end])
    else Ok([])
  }

  /** _parse_response: decode the cut-out object; both failures propagate. */
  function ParseResponse(response: string, decoder: Decoder): (r: Result<seq<(string, Value)>>)
    ensures JsonText(response).Err? ==> r == Err(NoJson)
    ensures JsonText(response).Ok? ==> r == Loads(decoder, JsonText(response).value)
  {
    match JsonText(response)
    case Err(e) => Err(e)
    case Ok(s) => Loads(decoder, s)
  }

  /** _validate_intent: every required field is a key of the object. */
  function ValidateIntent(parsed: seq<(string, Value)>): (ok: bool)
    ensures ok <==> "action" in Dicts.Keys(parsed) && "parameters" in Dicts.Keys(parsed)
  {
    forall f :: f in RequiredFields ==> f in Dicts.Keys(parsed)
  }

  /** The fallback intent built in the except clause. */
  function ErrorIntent(message: string, context: Value, text: string): (r: Intent)
    ensures r.action == Str("error") && Index(r.parameters, "error") == Ok(Str(message))
    ensures r.context == context && r.confidence == Float("0.0") && r.rawText == text
  {
    Intent(Str("error"), Dict([("error", Str(message))]), context, Float("0.0"), text)
  }

  /** `context or {}`. */
  function ContextOrEmpty(context: Value): (c: Value)
    ensures Truthy(context) ==> c == context
    ensures !Truthy(context) ==> c == Dict([])
  {
    if Truthy(context) then context else Dict([])
  }

  /** parse(text, context), given what generate() answered; it never fails. */
  function Parse(text: string, context: Value, reply: Result<string>, decoder: Decoder): (r: Intent)
    ensures r.rawText == text
  {
    var ctx := ContextOrEmpty(context);
    match reply
    case Err(e) => ErrorIntent(e, ctx, text)
    case Ok(response) =>
      match ParseResponse(response, decoder)
      case Err(e) => ErrorIntent(e, ctx, text)
      case Ok(parsed) =>
        if !ValidateIntent(parsed) then ErrorIntent(InvalidStructure, ctx, text)
        else
          Intent(
            Dicts.Lookup(parsed, "action").value,
            Dicts.Lookup(parsed, "parameters").value,
            Dicts.Lookup(parsed, "context").GetOr(Dict([])),
            Dicts.Lookup(parsed, "confidence").GetOr(Float("0.0")),
            text)
  }

  /** refine_intent returns its argument. */
  function RefineIntent(intent: Intent): (r: Intent)
    ensures r == intent
  {
    intent
  }

  /**
   * A valid decoded object becomes its intent: action and parameters copied,
   * context defaulting to {} and confidence to 0.0 only when absent.
   */
  lemma ParseValid(text: string, context: Value, response: string, decoder: Decoder, parsed: seq<(string, Value)>)
    requires ParseResponse(response, decoder) == Ok(parsed)
    requires "action" in Dicts.Keys(parsed) && "parameters" in Dicts.Keys(parsed)
    ensures
      var r := Parse(text, context, Ok(response), decoder);
      && Some(r.action) == Dicts.Lookup(parsed, "action")
      && Some(r.parameters) == Dicts.Lookup(parsed, "parameters")
      && ("context" in Dicts.Keys(parsed) ==> Some(r.context) == Dicts.Lookup(parsed, "context"))
      && ("context" !in Dicts.Keys(parsed) ==> r.context == Dict([]))
      && ("confidence" in Dicts.Keys(parsed) ==> Some(r.confidence) == Dicts.Lookup(parsed, "confidence"))
      && ("confidence" !in Dicts.Keys(parsed) ==> r.confidence == Float("0.0"))
      && r.rawText == text
  {
  }

  /** Every failure, including a missing field, gives the error intent with its message. */
  lemma ParseFails(text: string, context: Value, reply: Result<string>, decoder: Decoder)
    ensures reply.Err? ==>
      Parse(text, context, reply, decoder) == ErrorIntent(reply.error, ContextOrEmpty(context), text)
    ensures reply.Ok? && ParseResponse(reply.value, decoder).Err? ==>
      Parse(text, context, reply, decoder) ==
        ErrorIntent(ParseResponse(reply.value, decoder).error, ContextOrEmpty(context), text)
    ensures (reply.Ok? && ParseResponse(reply.value, decoder).Ok? &&
             !("action" in Dicts.Keys(ParseResponse(reply.value, decoder).value) &&
               "parameters" in Dicts.Keys(ParseResponse(reply.value, decoder).value))) ==>
      Parse(text, context, reply, decoder) == ErrorIntent(InvalidStructure, ContextOrEmpty(context), text)
  {
  }

  /** A reply with no '{' or no '}' gives the "No JSON structure" error intent. */
  lemma NoBraces(text: string, context: Value, response: string, decoder: Decoder)
    requires '{' !in response || '}' !in response
    ensures Parse(text, context, Ok(response), decoder) == ErrorIntent(NoJson, ContextOrEmpty(context), text)
  {
  }

  /** When every '}' precedes the first '{', the cut-out text is empty and decoding fails. */
  lemma BracesReversed(text: string, context: Value, response: string, decoder: Decoder, i: nat, j: nat)
    requires j < i < |response| && response[i] == '{' && response[j] == '}'
    requires '{' !in response[..i] && '}' !in response[j + 1..]
    ensures Parse(text, context, Ok(response), decoder) == ErrorIntent(EmptyDocument, ContextOrEmpty(context), text)
  {
  }

  /** What is decoded is exactly the text from the first '{' through the last '}'. */
  lemma CutOutIsDecoded(response: string, decoder: Decoder, i: nat, j: nat)
    requires i < j < |response| && response[i] == '{' && response[j] == '}'
    requires '{' !in response[..i] && '}' !in response[j + 1..]
    ensures ParseResponse(response, decoder) == decoder(response[i..j + 1])
  {
  }
}
