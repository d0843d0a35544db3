/**
 * The agent and the ui_automation plugin together: the one action the agent
 * selects is a click at (100, 100), which the registered plugin performs.
 */
module Wiring {
  import opened Wrappers
  import opened Values
  import opened Desktop
  import Plugins
  import UIAutomation
  import Agent

  /** The data the plugin reports for the agent's click. */
  const ClickedData := Dict([("x", Int(100)), ("y", Int(100))])

  /**
   * With the ui_automation plugin registered, the agent's action clicks at
   * (100, 100) and succeeds with those coordinates, or fails with the message
   * of the click's exception.
   */
  lemma {:induction false} AgentClickReachesPlugin(t: Plugins.Table, env: Env)
    requires Plugins.WellFormed(t)
    ensures
      var r := Plugins.Execute(Plugins.Registered(t, UIAutomation.AsPlugin(env)), Agent.ClickAction.plugin, Agent.ClickAction.parameters);
      && (env.click(Int(100), Int(100)).None? ==> r == UIAutomation.Succeeded(ClickedData))
      && (env.click(Int(100), Int(100)).Some? ==> r == UIAutomation.Failed(env.click(Int(100), Int(100)).value))
  {
    var p := UIAutomation.AsPlugin(env);
    var kw := Agent.ClickAction.parameters;
    Plugins.ExecuteRegistered(t, p, kw);
    assert Get(kw, "action") == Str("click");
    assert Get(kw, "x") == Int(100) && Get(kw, "y") == Int(100);
    UIAutomation.ClickAtCoordinates(env, kw, Int(100), Int(100));
  }
}
