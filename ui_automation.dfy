/** The ui_automation plugin: click, type and find, dispatched on the `action` argument. */
module UIAutomation {
  import opened Wrappers
  import opened Values
  import opened Desktop
  import Dicts
  import Plugins

  const Name := "ui_automation"
  const Description := "Provides UI automation capabilities like clicking, typing, and finding UI elements"

  /** The default typing interval, 0.1 seconds. */
  const DefaultInterval := Float("0.1")

  function Failed(message: string): Plugins.PluginResult {
    Plugins.PluginResult(false, Null, Some(message))
  }

  function Succeeded(data: Value): Plugins.PluginResult {
    Plugins.PluginResult(true, data, None)
  }

  /** A result is an envelope: success carries no error, failure carries one and no data. */
  predicate Enveloped(r: Plugins.PluginResult) {
    if r.success then r.error.None? else r.error.Some? && r.data == Null
  }

  /**
   * _handle_click: coordinates first, then an image to locate. Err is an exception
   * that escapes the handler (a failing click at coordinates).
   */
  function HandleClick(env: Env, kwargs: Kwargs): (r: Result<Plugins.PluginResult>)
    ensures r.Ok? ==> Enveloped(r.value)
    ensures r.Err? <==> Get(kwargs, "x") != Null && Get(kwargs, "y") != Null && env.click(Get(kwargs, "x"), Get(kwargs, "y")).Some?
    ensures
      var image := Get(kwargs, "image");
      (Get(kwargs, "x") == Null || Get(kwargs, "y") == Null) && Truthy(image) ==>
        && (env.locateCenter(image).LocateRaised? ==> r == Ok(Failed("Failed to find image: " + env.locateCenter(image).message)))
        && (env.locateCenter(image).Located? && env.clickAt(env.locateCenter(image).location).Some? ==>
              r == Ok(Failed("Failed to find image: " + env.clickAt(env.locateCenter(image).location).value)))
        && (env.locateCenter(image).Located? && env.clickAt(env.locateCenter(image).location).None? ==>
              r == Ok(Succeeded(Dict([("location", env.locateCenter(image).location)]))))
  {
    var x := Get(kwargs, "x");
    var y := Get(kwargs, "y");
    if x != Null && y != Null then
      match env.click(x, y)
      case Some(e) => Err(e)
      case None => Ok(Succeeded(Dict([("x", x), ("y", y)])))
    else
      var image := Get(kwargs, "image");
      if Truthy(image) then
        match env.locateCenter(image)
        case LocateRaised(e) => Ok(Failed("Failed to find image: " + e))
        case Located(loc) =>
          (match env.clickAt(loc)
           case Some(e) => Ok(Failed("Failed to find image: " + e))
           case None => Ok(Succeeded(Dict([("location", loc)]))))
        case NotLocated => Ok(Failed("No valid click target specified"))
      else
        Ok(Failed("No valid click target specified"))
  }

  /** _handle_type: a missing or empty text is refused; otherwise the text is written. */
  function HandleType(env: Env, kwargs: Kwargs): (r: Result<Plugins.PluginResult>)
    ensures r.Ok? ==> Enveloped(r.value)
    ensures !Truthy(Get(kwargs, "text")) ==> r == Ok(Failed("No text specified"))
    ensures
      var text := Get(kwargs, "text");
      var w := env.write(text, Dicts.Lookup(kwargs, "interval").GetOr(DefaultInterval));
      Truthy(text) ==>
        && (w.Some? ==> r == Err(w.value))
        && (w.None? ==> r == Ok(Succeeded(Dict([("text", text)]))))
  {
    var text := Get(kwargs, "text");
    if !Truthy(text) then
      Ok(Failed("No text specified"))
    else
      var interval := Dicts.Lookup(kwargs, "interval").GetOr(DefaultInterval);
      match env.write(text, interval)
      case Some(e) => Err(e)
      case None => Ok(Succeeded(Dict([("text", text)])))
  }

  /** _handle_find: locate an image without clicking it. */
  function HandleFind(env: Env, kwargs: Kwargs): (r: Plugins.PluginResult)
    ensures Enveloped(r)
    ensures !Truthy(Get(kwargs, "image")) ==> r == Failed("No image specified")
    ensures
      var found := env.locateCenter(Get(kwargs, "image"));
      Truthy(Get(kwargs, "image")) ==>
        && (found.Located? ==> r == Succeeded(Dict([("location", found.location)])))
        && (found.NotLocated? ==> r == Failed("Element not found"))
        && (found.LocateRaised? ==> r == Failed("Failed to find element: " + found.message))
  {
    var image := Get(kwargs, "image");
    if !Truthy(image) then
      Failed("No image specified")
    else
      match env.locateCenter(image)
      case Located(loc) => Succeeded(Dict([("location", loc)]))
      case NotLocated => Failed("Element not found")
      case LocateRaised(e) => Failed("Failed to find element: " + e)
  }

  /** UIAutomationPlugin.execute: dispatch on `action`; an escaping exception becomes a failure. */
  function Execute(env: Env, kwargs: Kwargs): (r: Plugins.PluginResult)
    ensures Enveloped(r)
    ensures !Truthy(Get(kwargs, "action")) ==> r == Failed("No action specified")
    ensures r.success ==> Get(kwargs, "action") in {Str("click"), Str("type"), Str("find")}
  {
    var action := Get(kwargs, "action");
    if !Truthy(action) then
      Failed("No action specified")
    else
      var handled :=
        if action == Str("click") then HandleClick(env, kwargs)
        else if action == Str("type") then HandleType(env, kwargs)
        else if action == Str("find") then Ok(HandleFind(env, kwargs))
        else Ok(Failed("Unknown action: " + StrOf(action)));
      match handled
      case Ok(res) => res
      case Err(e) => Failed(e)
  }

  /** The plugin as the registry stores it; it never raises out of execute. */
  function AsPlugin(env: Env): (p: Plugins.Plugin)
    ensures p.name == Name
    ensures forall kw :: p.execute(kw) == Plugins.Returned(Execute(env, kw))
  {
    Plugins.Plugin(Name, Description, kw => Plugins.Returned(Execute(env, kw)))
  }

  /** Any action other than click, type and find is refused by name. */
  lemma UnknownAction(env: Env, kwargs: Kwargs)
    requires Truthy(Get(kwargs, "action"))
    requires Get(kwargs, "action") !in {Str("click"), Str("type"), Str("find")}
    ensures Execute(env, kwargs) == Failed("Unknown action: " + StrOf(Get(kwargs, "action")))
  {
  }

  /**
   * A click with both coordinates present (0 included) clicks there and reports them;
   * a failing click is reported with the exception's message.
   */
  lemma ClickAtCoordinates(env: Env, kwargs: Kwargs, x: Value, y: Value)
    requires Get(kwargs, "action") == Str("click")
    requires Get(kwargs, "x") == x && Get(kwargs, "y") == y
    requires x != Null && y != Null
    ensures Execute(env, kwargs) ==
      if env.click(x, y).None? then Succeeded(Dict([("x", x), ("y", y)])) else Failed(env.click(x, y).value)
  {
  }

  /** Without coordinates, a click needs an image that is located on screen. */
  lemma ClickWithoutTarget(env: Env, kwargs: Kwargs)
    requires Get(kwargs, "action") == Str("click")
    requires Get(kwargs, "x") == Null || Get(kwargs, "y") == Null
    requires !Truthy(Get(kwargs, "image")) || env.locateCenter(Get(kwargs, "image")).NotLocated?
    ensures Execute(env, kwargs) == Failed("No valid click target specified")
  {
  }

  /**
   * A click on an image, without both coordinates: the located centre is clicked
   * and reported; an exception while locating or clicking is reported as such.
   */
  lemma ClickImage(env: Env, kwargs: Kwargs)
    requires Get(kwargs, "action") == Str("click")
    requires Get(kwargs, "x") == Null || Get(kwargs, "y") == Null
    requires Truthy(Get(kwargs, "image"))
    ensures
      var found := env.locateCenter(Get(kwargs, "image"));
      && (found.LocateRaised? ==> Execute(env, kwargs) == Failed("Failed to find image: " + found.message))
      && (found.Located? && env.clickAt(found.location).Some? ==>
            Execute(env, kwargs) == Failed("Failed to find image: " + env.clickAt(found.location).value))
      && (found.Located? && env.clickAt(found.location).None? ==>
            Execute(env, kwargs) == Succeeded(Dict([("location", found.location)])))
  {
  }

  /** Typing needs a non-empty text, and reports the text it wrote, or the exception of the write. */
  lemma TypeText(env: Env, kwargs: Kwargs)
    requires Get(kwargs, "action") == Str("type")
    ensures !Truthy(Get(kwargs, "text")) ==> Execute(env, kwargs) == Failed("No text specified")
    ensures Truthy(Get(kwargs, "text")) &&
            env.write(Get(kwargs, "text"), Dicts.Lookup(kwargs, "interval").GetOr(DefaultInterval)).None? ==>
            Execute(env, kwargs) == Succeeded(Dict([("text", Get(kwargs, "text"))]))
    ensures Truthy(Get(kwargs, "text")) &&
            env.write(Get(kwargs, "text"), Dicts.Lookup(kwargs, "interval").GetOr(DefaultInterval)).Some? ==>
            Execute(env, kwargs) ==
              Failed(env.write(Get(kwargs, "text"), Dicts.Lookup(kwargs, "interval").GetOr(DefaultInterval)).value)
  {
  }

  /** Finding needs an image: a located one is reported with its centre, a missing one as not found, an exception by its message. */
  lemma FindImage(env: Env, kwargs: Kwargs)
    requires Get(kwargs, "action") == Str("find")
    ensures !Truthy(Get(kwargs, "image")) ==> Execute(env, kwargs) == Failed("No image specified")
    ensures Truthy(Get(kwargs, "image")) && env.locateCenter(Get(kwargs, "image")).NotLocated? ==>
            Execute(env, kwargs) == Failed("Element not found")
    ensures Truthy(Get(kwargs, "image")) && env.locateCenter(Get(kwargs, "image")).Located? ==>
            Execute(env, kwargs) == Succeeded(Dict([("location", env.locateCenter(Get(kwargs, "image")).location)]))
    ensures Truthy(Get(kwargs, "image")) && env.locateCenter(Get(kwargs, "image")).LocateRaised? ==>
            Execute(env, kwargs) == Failed("Failed to find element: " + env.locateCenter(Get(kwargs, "image")).message)
  {
  }
}
