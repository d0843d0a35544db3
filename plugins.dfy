/**
 * The plugin registry: a name-to-plugin dict in registration order, with a
 * uniform result envelope for every invocation.
 */
module Plugins {
  import opened Wrappers
  import opened Values
  import Dicts

  /** success, data, error: what every plugin invocation yields. */
  datatype PluginResult = PluginResult(success: bool, data: Value, error: Option<string>)

  /** A plugin handler either returns a result or raises with a message. */
  datatype HandlerOutcome = Returned(result: PluginResult) | Raised(message: string)

  datatype Plugin = Plugin(name: string, description: string, execute: Kwargs -> HandlerOutcome)

  /** One entry of list_plugins(). */
  datatype PluginInfo = PluginInfo(name: string, description: string)

  /** The registry's dict: plugin name to plugin, in insertion order. */
  type Table = seq<(string, Plugin)>

  /** Every entry is stored under its plugin's own name, once. */
  predicate WellFormed(t: Table) {
    Dicts.UniqueKeys(t) && forall i :: 0 <= i < |t| ==> t[i].1.name == t[i].0
  }

  /** register(p) on the dict: `_plugins[p.name] = p`. */
  function Registered(t: Table, p: Plugin): (r: Table)
    requires WellFormed(t)
    ensures WellFormed(r)
  {
    Dicts.PutUnique(t, p.name, p);
    var r := Dicts.Put(t, p.name, p);
    forall i | 0 <= i < |r| ensures r[i].1.name == r[i].0 {
      if i < |t| {
        Dicts.PutAt(t, p.name, p, i);
      } else {
        Dicts.KeysPut(t, p.name, p);
        assert Dicts.Keys(r)[i] == p.name;
        Dicts.LookupPutSame(t, p.name, p);
        Dicts.LookupAt(r, i);
      }
    }
    r
  }

  /** register() logs a warning exactly when the name is already taken. */
  function OverwriteWarning(t: Table, p: Plugin): bool {
    p.name in Dicts.Keys(t)
  }

  /** list_plugins(): one {name, description} per entry, in dict order. */
  function Listing(t: Table): (r: seq<PluginInfo>)
    ensures |r| == |t|
    ensures forall i :: 0 <= i < |t| ==> r[i] == PluginInfo(t[i].1.name, t[i].1.description)
  {
    seq(|t|, i requires 0 <= i < |t| => PluginInfo(t[i].1.name, t[i].1.description))
  }

  function NotFoundMessage(name: string): string {
    "Plugin " + name + " not found"
  }

  /** execute_plugin(name, **kwargs) on the dict. */
  function Execute(t: Table, name: string, kwargs: Kwargs): (r: PluginResult)
    ensures Dicts.Lookup(t, name).None? ==> r == PluginResult(false, Null, Some(NotFoundMessage(name)))
    ensures r.success ==> Dicts.Lookup(t, name).Some? && Dicts.Lookup(t, name).value.execute(kwargs) == Returned(r)
  {
    match Dicts.Lookup(t, name)
    case None => PluginResult(false, Null, Some(NotFoundMessage(name)))
    case Some(p) =>
      match p.execute(kwargs)
      case Returned(res) => res
      case Raised(e) => PluginResult(false, Null, Some(e))
  }

  /** After register(p), get_plugin(p.name) is p: the last writer wins. */
  lemma RegisterThenGet(t: Table, p: Plugin)
    requires WellFormed(t)
    ensures Dicts.Lookup(Registered(t, p), p.name) == Some(p)
  {
    Dicts.LookupPutSame(t, p.name, p);
  }

  /** register(p) leaves every other name's plugin as it was. */
  lemma RegisterKeepsOthers(t: Table, p: Plugin, name: string)
    requires WellFormed(t) && name != p.name
    ensures Dicts.Lookup(Registered(t, p), name) == Dicts.Lookup(t, name)
  {
    Dicts.LookupPutOther(t, p.name, p, name);
  }

  /** list_plugins() after overwriting a name: same positions, only that entry changes. */
  lemma RegisterListingOverwrite(t: Table, p: Plugin)
    requires WellFormed(t) && OverwriteWarning(t, p)
    ensures |Listing(Registered(t, p))| == |Listing(t)|
    ensures forall i :: 0 <= i < |t| ==>
      Listing(Registered(t, p))[i] ==
        (if t[i].0 == p.name then PluginInfo(p.name, p.description) else Listing(t)[i])
  {
    var r := Registered(t, p);
    Dicts.PutAt(t, p.name, p, 0);
    forall i | 0 <= i < |t|
      ensures Listing(r)[i] == (if t[i].0 == p.name then PluginInfo(p.name, p.description) else Listing(t)[i])
    {
      Dicts.PutAt(t, p.name, p, i);
    }
  }

  /** list_plugins() after registering a new name: the old listing, then the new plugin. */
  lemma RegisterListingNew(t: Table, p: Plugin)
    requires WellFormed(t) && !OverwriteWarning(t, p)
    ensures Listing(Registered(t, p)) == Listing(t) + [PluginInfo(p.name, p.description)]
  {
    var r := Registered(t, p);
    Dicts.PutNew(t, p.name, p);
    assert r == t + [(p.name, p)];
    assert Listing(r) == Listing(t) + [PluginInfo(p.name, p.description)] by {
      forall i | 0 <= i < |r| ensures Listing(r)[i] == (Listing(t) + [PluginInfo(p.name, p.description)])[i] {
        if i < |t| {
          assert r[i] == t[i];
        }
      }
    }
  }

  /** An unknown name is reported, and no handler runs. */
  lemma ExecuteUnknown(t: Table, name: string, kwargs: Kwargs)
    requires name !in Dicts.Keys(t)
    ensures Execute(t, name, kwargs) == PluginResult(false, Null, Some("Plugin " + name + " not found"))
  {
  }

  /**
   * A registered plugin's outcome is returned unchanged; an exception it raises
   * becomes a failed result carrying the message, and never escapes.
   */
  lemma ExecuteRegistered(t: Table, p: Plugin, kwargs: Kwargs)
    requires WellFormed(t)
    ensures Execute(Registered(t, p), p.name, kwargs) ==
      match p.execute(kwargs)
      case Returned(res) => res
      case Raised(e) => PluginResult(false, Null, Some(e))
  {
    RegisterThenGet(t, p);
  }

  /**
   * The one registry instance every client shares. Its state is the dict
   * `plugins`; get_plugin, list_plugins and execute_plugin only read it.
   */
  class PluginRegistry {
    var plugins: Table

    ghost predicate Valid()
      reads this
    {
      WellFormed(plugins)
    }

    constructor ()
      ensures Valid() && plugins == []
    {
      plugins := [];
    }

    /** Stores `p` under its name; returns whether an overwrite warning was logged. */
    method Register(p: Plugin) returns (warned: bool)
      requires Valid()
      modifies this
      ensures Valid()
      ensures warned == OverwriteWarning(old(plugins), p)
      ensures plugins == Registered(old(plugins), p)
      ensures GetPlugin(p.name) == Some(p)
      ensures forall n :: n != p.name ==> GetPlugin(n) == old(GetPlugin(n))
    {
      warned := p.name in Dicts.Keys(plugins);
      RegisterThenGet(plugins, p);
      forall n | n != p.name ensures Dicts.Lookup(Registered(plugins, p), n) == Dicts.Lookup(plugins, n) {
        RegisterKeepsOthers(plugins, p, n);
      }
      plugins := Registered(plugins, p);
    }

    function GetPlugin(name: string): (r: Option<Plugin>)
      reads this
      ensures r.Some? <==> name in Dicts.Keys(plugins)
    {
      Dicts.Lookup(plugins, name)
    }

    /** One {name, description} per registered plugin, in registration order. */
    function ListPlugins(): (r: seq<PluginInfo>)
      reads this
      ensures |r| == |plugins|
      ensures forall i :: 0 <= i < |plugins| ==> r[i] == PluginInfo(plugins[i].1.name, plugins[i].1.description)
    {
      Listing(plugins)
    }

    /** An unknown name is reported; a known plugin's result, or the message it raised, is returned. */
    function ExecutePlugin(name: string, kwargs: Kwargs): (r: PluginResult)
      reads this
      ensures GetPlugin(name).None? ==> r == PluginResult(false, Null, Some(NotFoundMessage(name)))
      ensures GetPlugin(name).Some? && GetPlugin(name).value.execute(kwargs).Returned? ==>
        r == GetPlugin(name).value.execute(kwargs).result
      ensures GetPlugin(name).Some? && GetPlugin(name).value.execute(kwargs).Raised? ==>
        r == PluginResult(false, Null, Some(GetPlugin(name).value.execute(kwargs).message))
    {
      Execute(plugins, name, kwargs)
    }
  }
}
