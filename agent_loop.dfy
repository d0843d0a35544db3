/**
 * The ReAct agent loop: ask the model, classify its reply into a thought,
 * then plan (recurse on sub-goals), act (dispatch a plugin and observe) or
 * reflect (decide completion), until the task is completed or the step
 * budget is spent.
 *
 * The model client is a script of replies consumed one per generate() call;
 * a script with no reply left, or an Unavailable entry, is generate() raising.
 * The first half of the module states execute_task as functions of the
 * script; the classes at the end are the loop itself, proved to compute them.
 */
module Agent {
  import opened Wrappers
  import opened Values
  import Text
  import Dicts
  import Plugins

  datatype ThoughtType = TaskPlanning | ActionSelection | Observation | Reflection

  datatype Thought = Thought(kind: ThoughtType, content: string)

  datatype Action = Action(plugin: string, parameters: Kwargs)

  /** One answer of model_client.generate(prompt). */
  datatype Reply = Reply(text: string) | Unavailable(message: string)

  /** The message of the failure when the script has no reply left. */
  const NoReply := "the model client returned no reply"

  /** The only action _select_action can produce. */
  const ClickAction := Action("ui_automation", [("action", Str("click")), ("x", Int(100)), ("y", Int(100))])

  /** The next generate() answer and the script left after it. */
  function Ask(replies: seq<Reply>): (r: (Reply, seq<Reply>))
    ensures replies != [] ==> r == (replies[0], replies[1..])
    ensures replies == [] ==> r == (Unavailable(NoReply), [])
  {
    if replies == [] then (Unavailable(NoReply), []) else (replies[0], replies[1..])
  }

  /** _think: "plan" wins over "action"; everything else is a reflection. */
  function Think(reply: string): (t: Thought)
    ensures t.content == reply
    ensures t.kind != Observation
    ensures t.kind == TaskPlanning <==> Text.Contains(Text.Lower(reply), "plan")
    ensures t.kind == ActionSelection <==>
      !Text.Contains(Text.Lower(reply), "plan") && Text.Contains(Text.Lower(reply), "action")
  {
    var lower := Text.Lower(reply);
    if Text.Contains(lower, "plan") then Thought(TaskPlanning, reply)
    else if Text.Contains(lower, "action") then Thought(ActionSelection, reply)
    else Thought(Reflection, reply)
  }

  /** _plan_subtasks: one sub-goal per line of the reply. */
  function PlanSubtasks(reply: string): (goals: seq<string>)
    ensures |goals| >= 1
    ensures forall i :: 0 <= i < |goals| ==> '\n' !in goals[i]
    ensures Text.Join(goals, "\n") == reply
  {
    Text.JoinSplit(reply, '\n');
    Text.Split(reply, '\n')
  }

  /** _select_action: the fixed click at (100, 100) when the reply mentions "click". */
  function SelectAction(reply: string): (a: Option<Action>)
    ensures a.Some? <==> Text.Contains(Text.Lower(reply), "click")
    ensures a.Some? ==> a.value == ClickAction
  {
    if Text.Contains(Text.Lower(reply), "click") then Some(ClickAction) else None
  }

  /** _observe: a summary of the last plugin result. */
  function Observe(lastResult: Option<Plugins.PluginResult>): (t: Thought)
    ensures t.kind == Observation
    ensures lastResult.None? <==> t.content == "No observation available"
    ensures lastResult.Some? ==>
      Text.StartsWith(t.content, if lastResult.value.success then "Action succeeded: " else "Action failed: ")
    ensures lastResult.Some? ==>
      var res := lastResult.value;
      t.content == (if res.success then "Action succeeded: " else "Action failed: ")
        + (if res.error.Some? && res.error.value != "" then res.error.value else StrOf(res.data))
  {
    match lastResult
    case None => Thought(Observation, "No observation available")
    case Some(res) =>
      var head := if res.success then "Action succeeded: " else "Action failed: ";
      var detail := if res.error.Some? && res.error.value != "" then res.error.value else StrOf(res.data);
      assert (head + detail)[..|head|] == head;
      assert (head + detail)[0] == 'A' != "No observation available"[0];
      Thought(Observation, head + detail)
  }

  /** _reflect: the task is complete when the reply mentions "complete" (so "incomplete" too). */
  function Reflect(reply: string): (r: bool)
    ensures r <==> exists i :: Text.OccursAt(Text.Lower(reply), "complete", i)
  {
    Text.ContainsIff(Text.Lower(reply), "complete");
    Text.Contains(Text.Lower(reply), "complete")
  }

  /** Any reply mentioning "incomplete" also mentions "complete", so it completes the task. */
  lemma IncompleteCompletes(reply: string)
    requires Text.Contains(Text.Lower(reply), "incomplete")
    ensures Reflect(reply)
  {
    assert Text.OccursAt("incomplete", "complete", 2);
    Text.ContainsAt("incomplete", "complete", 2);
    Text.ContainsTrans(Text.Lower(reply), "incomplete", "complete");
  }

  /** The fields of a TaskState at one moment. */
  datatype TaskSnapshot = TaskSnapshot(
    goal: string,
    completed: bool,
    thoughts: seq<Thought>,
    lastAction: Option<Action>,
    lastResult: Option<Plugins.PluginResult>)

  /** TaskState(goal=goal): nothing thought, nothing done. */
  function Fresh(goal: string): TaskSnapshot {
    TaskSnapshot(goal, false, [], None, None)
  }

  /** A run of execute_task: the state it returns, or the exception it raises. */
  datatype Run =
    | Finished(state: TaskSnapshot, steps: nat, rest: seq<Reply>)
    | Aborted(error: string, rest: seq<Reply>)

  /** One round of the loop body, before `steps += 1`. */
  datatype Round =
    | Next(state: TaskSnapshot, rest: seq<Reply>)
    | Stop(error: string, rest: seq<Reply>)

  /** The `for subtask in subtasks` loop of a planning round. */
  datatype Subtasks = AllRun(rest: seq<Reply>) | SubtaskFailed(error: string, rest: seq<Reply>)

  /** The action-selection branch once the action reply is in. */
  function Act(t: Plugins.Table, s: TaskSnapshot, reply: string): (r: TaskSnapshot)
    ensures r.goal == s.goal && r.completed == s.completed
    ensures SelectAction(reply).None? ==> r == s
    ensures SelectAction(reply).Some? ==>
      && Paired(t, r) && r.lastAction.Some?
      && r.thoughts == s.thoughts + [Observe(r.lastResult)]
  {
    match SelectAction(reply)
    case None => s
    case Some(a) =>
      var result := Plugins.Execute(t, a.plugin, a.parameters);
      var s' := s.(lastAction := Some(a), lastResult := Some(result));
      s'.(thoughts := s'.thoughts + [Observe(s'.lastResult)])
  }

  /** execute_task(goal, max_steps) against the plugin table `t` and the reply script. */
  function RunTask(t: Plugins.Table, goal: string, maxSteps: int, replies: seq<Reply>): (r: Run)
    ensures |r.rest| <= |replies|
    ensures maxSteps <= 0 ==> r == Finished(Fresh(goal), 0, replies)
    decreases |replies|, 2
  {
    Loop(t, Fresh(goal), 0, maxSteps, replies)
  }

  /** The while loop, from state `s` after `steps` rounds. */
  function Loop(t: Plugins.Table, s: TaskSnapshot, steps: nat, maxSteps: int, replies: seq<Reply>): (r: Run)
    ensures |r.rest| <= |replies|
    decreases |replies|, 1
  {
    if s.completed || steps >= maxSteps then Finished(s, steps, replies)
    else
      match Body(t, s, steps, maxSteps, replies)
      case Stop(e, rest) => Aborted(e, rest)
      case Next(s', rest) => Loop(t, s', steps + 1, maxSteps, rest)
  }

  /** One round: think, then branch on the kind of thought. */
  function Body(t: Plugins.Table, s: TaskSnapshot, steps: nat, maxSteps: int, replies: seq<Reply>): (r: Round)
    requires steps < maxSteps
    ensures |r.rest| < |replies| || (replies == [] && r.Stop?)
    decreases |replies|, 0
  {
    var (first, after) := Ask(replies);
    match first
    case Unavailable(e) => Stop(e, after)
    case Reply(text) =>
      var thought := Think(text);
      var s1 := s.(thoughts := s.thoughts + [thought]);
      var (second, rest) := Ask(after);
      match thought.kind
      case TaskPlanning =>
        (match second
         case Unavailable(e) => Stop(e, rest)
         case Reply(plan) =>
           match RunSubtasks(t, PlanSubtasks(plan), maxSteps - steps, rest)
           case AllRun(rest') => Next(s1, rest')
           case SubtaskFailed(e, rest') => Stop(e, rest'))
      case ActionSelection =>
        (match second
         case Unavailable(e) => Stop(e, rest)
         case Reply(choice) => Next(Act(t, s1, choice), rest))
      case Reflection =>
        (match second
         case Unavailable(e) => Stop(e, rest)
         case Reply(verdict) => Next(s1.(completed := Reflect(verdict)), rest))
      case Observation => Next(s1, after)
  }

  /** Each sub-goal runs as its own task with `budget`; its state is discarded. */
  function RunSubtasks(t: Plugins.Table, goals: seq<string>, budget: int, replies: seq<Reply>): (r: Subtasks)
    ensures |r.rest| <= |replies|
    decreases |replies|, 3, |goals|
  {
    if goals == [] then AllRun(replies)
    else
      match RunTask(t, goals[0], budget, replies)
      case Aborted(e, rest) => SubtaskFailed(e, rest)
      case Finished(_, _, rest) => RunSubtasks(t, goals[1..], budget, rest)
  }

  /**
   * last_action and last_result are set together: either neither is, or the
   * action is the fixed click and the result is what dispatching it returned.
   */
  predicate Paired(t: Plugins.Table, s: TaskSnapshot) {
    if s.lastAction.None? then s.lastResult.None?
    else
      s.lastAction == Some(ClickAction) &&
      s.lastResult == Some(Plugins.Execute(t, ClickAction.plugin, ClickAction.parameters))
  }

  /**
   * What one round does to the task state: it appends the think thought, then
   * an observation only after a dispatched action; it writes `completed` only
   * when reflecting, and the last action and result only when dispatching;
   * a planning round changes nothing else. A round consumes at least two replies.
   */
  lemma {:induction false} BodyRound(t: Plugins.Table, s: TaskSnapshot, steps: nat, maxSteps: int, replies: seq<Reply>)
    requires steps < maxSteps
    requires Body(t, s, steps, maxSteps, replies).Next?
    ensures |replies| >= 2 && replies[0].Reply? && replies[1].Reply?
    ensures |Body(t, s, steps, maxSteps, replies).rest| <= |replies| - 2
    ensures
      var s' := Body(t, s, steps, maxSteps, replies).state;
      var th := Think(replies[0].text);
      var second := replies[1].text;
      && s'.goal == s.goal
      && s'.thoughts[..|s.thoughts| + 1] == s.thoughts + [th]
      && s'.completed == (if th.kind == Reflection then Reflect(second) else s.completed)
      && (th.kind == ActionSelection && SelectAction(second).Some? ==>
            && s'.lastAction == Some(ClickAction)
            && s'.lastResult == Some(Plugins.Execute(t, ClickAction.plugin, ClickAction.parameters))
            && s'.thoughts == s.thoughts + [th, Observe(s'.lastResult)])
      && (!(th.kind == ActionSelection && SelectAction(second).Some?) ==>
            && s'.lastAction == s.lastAction
            && s'.lastResult == s.lastResult
            && s'.thoughts == s.thoughts + [th])
  {
    var (first, after) := Ask(replies);
    var th := Think(first.text);
    var (second, rest) := Ask(after);
    if th.kind == TaskPlanning {
      var sub := RunSubtasks(t, PlanSubtasks(second.text), maxSteps - steps, rest);
      assert |sub.rest| <= |rest|;
    }
  }

  /** A round that goes on has consumed the think reply and the reply that follows it. */
  lemma {:induction false} BodyConsumes(t: Plugins.Table, s: TaskSnapshot, steps: nat, maxSteps: int, replies: seq<Reply>)
    requires steps < maxSteps
    requires Body(t, s, steps, maxSteps, replies).Next?
    ensures |Body(t, s, steps, maxSteps, replies).rest| <= |replies| - 2
  {
    var (first, after) := Ask(replies);
    var th := Think(first.text);
    var (second, rest) := Ask(after);
    if th.kind == TaskPlanning {
      var sub := RunSubtasks(t, PlanSubtasks(second.text), maxSteps - steps, rest);
      assert |sub.rest| <= |rest|;
    }
  }

  /** A round adds at least one thought; one that sets `completed` ends on its reflection. */
  lemma {:induction false} BodyReflects(t: Plugins.Table, s: TaskSnapshot, steps: nat, maxSteps: int, replies: seq<Reply>)
    requires steps < maxSteps
    requires Body(t, s, steps, maxSteps, replies).Next?
    ensures
      var s' := Body(t, s, steps, maxSteps, replies).state;
      && |s'.thoughts| > |s.thoughts|
      && (s'.completed && !s.completed ==> s'.thoughts[|s'.thoughts| - 1].kind == Reflection)
  {
    BodyRound(t, s, steps, maxSteps, replies);
  }

  lemma {:induction false} BodyPaired(t: Plugins.Table, s: TaskSnapshot, steps: nat, maxSteps: int, replies: seq<Reply>)
    requires steps < maxSteps && Paired(t, s)
    requires Body(t, s, steps, maxSteps, replies).Next?
    ensures Paired(t, Body(t, s, steps, maxSteps, replies).state)
  {
    BodyRound(t, s, steps, maxSteps, replies);
  }

  /**
   * The loop from state `s` after `steps` rounds: a completed state runs no
   * further round; otherwise it stops with `completed` or with the budget
   * spent, never runs past the budget, and consumes at least two replies per round.
   */
  lemma {:induction false} LoopSteps(t: Plugins.Table, s: TaskSnapshot, steps: nat, maxSteps: int, replies: seq<Reply>)
    ensures s.completed ==> Loop(t, s, steps, maxSteps, replies) == Finished(s, steps, replies)
    ensures
      var r := Loop(t, s, steps, maxSteps, replies);
      r.Finished? ==>
        && steps <= r.steps <= (if steps < maxSteps then maxSteps else steps)
        && (r.state.completed || r.steps >= maxSteps)
        && |replies| - |r.rest| >= 2 * (r.steps - steps)
    decreases |replies|
  {
    if !(s.completed || steps >= maxSteps) {
      var b := Body(t, s, steps, maxSteps, replies);
      if b.Next? {
        BodyConsumes(t, s, steps, maxSteps, replies);
        LoopSteps(t, b.state, steps + 1, maxSteps, b.rest);
      }
    }
  }

  /** The loop only appends thoughts, at most two per round, and keeps the goal. */
  lemma {:induction false} LoopThoughts(t: Plugins.Table, s: TaskSnapshot, steps: nat, maxSteps: int, replies: seq<Reply>)
    ensures
      var r := Loop(t, s, steps, maxSteps, replies);
      r.Finished? ==>
        && r.state.goal == s.goal
        && s.thoughts <= r.state.thoughts
        && |r.state.thoughts| <= |s.thoughts| + 2 * (r.steps - steps)
    decreases |replies|
  {
    if !(s.completed || steps >= maxSteps) {
      var b := Body(t, s, steps, maxSteps, replies);
      if b.Next? {
        BodyRound(t, s, steps, maxSteps, replies);
        LoopThoughts(t, b.state, steps + 1, maxSteps, b.rest);
      }
    }
  }

  /** `completed` is set only by a reflection round, and that round is the last one. */
  lemma {:induction false} LoopCompletes(t: Plugins.Table, s: TaskSnapshot, steps: nat, maxSteps: int, replies: seq<Reply>)
    ensures
      var r := Loop(t, s, steps, maxSteps, replies);
      r.Finished? && r.state.completed && !s.completed ==>
        |r.state.thoughts| > |s.thoughts| && r.state.thoughts[|r.state.thoughts| - 1].kind == Reflection
    decreases |replies|
  {
    if !(s.completed || steps >= maxSteps) {
      var b := Body(t, s, steps, maxSteps, replies);
      if b.Next? {
        BodyReflects(t, s, steps, maxSteps, replies);
        if b.state.completed {
          LoopSteps(t, b.state, steps + 1, maxSteps, b.rest);
        } else {
          LoopCompletes(t, b.state, steps + 1, maxSteps, b.rest);
        }
      }
    }
  }

  /** The loop keeps the last action and the last result paired. */
  lemma {:induction false} LoopPaired(t: Plugins.Table, s: TaskSnapshot, steps: nat, maxSteps: int, replies: seq<Reply>)
    requires Paired(t, s)
    ensures Loop(t, s, steps, maxSteps, replies).Finished? ==> Paired(t, Loop(t, s, steps, maxSteps, replies).state)
    decreases |replies|
  {
    if !(s.completed || steps >= maxSteps) {
      var b := Body(t, s, steps, maxSteps, replies);
      if b.Next? {
        BodyPaired(t, s, steps, maxSteps, replies);
        LoopPaired(t, b.state, steps + 1, maxSteps, b.rest);
      }
    }
  }

  /**
   * execute_task(goal, max_steps): at most max_steps rounds; it returns either
   * completed or after exactly max_steps rounds; at most two thoughts per round;
   * a non-positive budget returns the untouched state without asking the model.
   */
  lemma RunTaskBounds(t: Plugins.Table, goal: string, maxSteps: int, replies: seq<Reply>)
    ensures maxSteps <= 0 ==> RunTask(t, goal, maxSteps, replies) == Finished(Fresh(goal), 0, replies)
    ensures
      var r := RunTask(t, goal, maxSteps, replies);
      r.Finished? ==>
        && r.steps <= (if maxSteps > 0 then maxSteps else 0)
        && (r.state.completed || r.steps == (if maxSteps > 0 then maxSteps else 0))
        && r.state.goal == goal
        && |r.state.thoughts| <= 2 * r.steps
        && Paired(t, r.state)
        && (r.state.completed ==> |r.state.thoughts| > 0 && r.state.thoughts[|r.state.thoughts| - 1].kind == Reflection)
        && |replies| - |r.rest| >= 2 * r.steps
  {
    LoopSteps(t, Fresh(goal), 0, maxSteps, replies);
    LoopThoughts(t, Fresh(goal), 0, maxSteps, replies);
    LoopCompletes(t, Fresh(goal), 0, maxSteps, replies);
    LoopPaired(t, Fresh(goal), 0, maxSteps, replies);
  }

  /** A reply that sends the loop to reflection. */
  predicate Reflective(text: string) {
    !Text.Contains(Text.Lower(text), "plan") && !Text.Contains(Text.Lower(text), "action")
  }

  /** A model that reflects and then reports completion finishes in exactly one round. */
  lemma CompletesInOneRound(t: Plugins.Table, goal: string, maxSteps: int, first: string, verdict: string, later: seq<Reply>)
    requires maxSteps >= 1
    requires Reflective(first) && Text.Contains(Text.Lower(verdict), "complete")
    ensures RunTask(t, goal, maxSteps, [Reply(first), Reply(verdict)] + later) ==
      Finished(TaskSnapshot(goal, true, [Thought(Reflection, first)], None, None), 1, later)
  {
    var replies := [Reply(first), Reply(verdict)] + later;
    assert replies[1..] == [Reply(verdict)] + later;
    assert Ask(replies) == (Reply(first), [Reply(verdict)] + later);
    assert Ask([Reply(verdict)] + later) == (Reply(verdict), later);
    var s1 := TaskSnapshot(goal, true, [Thought(Reflection, first)], None, None);
    assert Think(first) == Thought(Reflection, first);
    assert Body(t, Fresh(goal), 0, maxSteps, replies) == Next(s1, later);
    assert Loop(t, s1, 1, maxSteps, later) == Finished(s1, 1, later);
    assert Loop(t, Fresh(goal), 0, maxSteps, replies) == Loop(t, s1, 1, maxSteps, later);
  }

  /** A script of reflections that never report completion. */
  predicate NeverCompletes(replies: seq<Reply>) {
    forall i :: 0 <= i < |replies| ==>
      replies[i].Reply? && Reflective(replies[i].text) && !Reflect(replies[i].text)
  }

  /** Such a model makes the loop run out its budget: exactly max_steps rounds, not completed. */
  lemma {:induction false} RunsOutBudget(t: Plugins.Table, s: TaskSnapshot, steps: nat, maxSteps: nat, replies: seq<Reply>)
    requires !s.completed && steps <= maxSteps
    requires NeverCompletes(replies) && |replies| >= 2 * (maxSteps - steps)
    ensures Loop(t, s, steps, maxSteps, replies).Finished?
    ensures Loop(t, s, steps, maxSteps, replies).steps == maxSteps
    ensures !Loop(t, s, steps, maxSteps, replies).state.completed
    decreases maxSteps - steps
  {
    if steps < maxSteps {
      var b := Body(t, s, steps, maxSteps, replies);
      assert Ask(replies) == (replies[0], replies[1..]);
      assert Ask(replies[1..]) == (replies[1], replies[2..]);
      assert Think(replies[0].text).kind == Reflection;
      assert b == Next(s.(thoughts := s.thoughts + [Think(replies[0].text)]), replies[2..]);
      assert NeverCompletes(replies[2..]) by {
        forall i | 0 <= i < |replies[2..]| ensures replies[2..][i] == replies[i + 2] { }
      }
      RunsOutBudget(t, b.state, steps + 1, maxSteps, replies[2..]);
    }
  }

  /** A reply without a line break plans exactly one sub-goal, itself. */
  lemma OneLinePlan(reply: string)
    requires '\n' !in reply
    ensures PlanSubtasks(reply) == [reply]
  {
    Text.CountAbsent(reply, '\n');
    Text.SplitLength(reply, '\n');
    assert Text.Join(PlanSubtasks(reply), "\n") == reply;
  }

  /**
   * The budget is not shared with sub-goals: with max_steps = 1, a planning
   * round hands its one sub-goal the same budget of 1, so the sub-goal runs a
   * round of its own and four replies are consumed by a one-step task.
   */
  lemma {:induction false} SubgoalBudgetNotShared(t: Plugins.Table, goal: string, plan: string, subgoal: string, first: string, verdict: string)
    requires Text.Contains(Text.Lower(plan), "plan") && '\n' !in subgoal
    requires NeverCompletes([Reply(first), Reply(verdict)])
    ensures RunTask(t, goal, 1, [Reply(plan), Reply(subgoal), Reply(first), Reply(verdict)]) ==
      Finished(TaskSnapshot(goal, false, [Thought(TaskPlanning, plan)], None, None), 1, [])
  {
    var replies := [Reply(plan), Reply(subgoal), Reply(first), Reply(verdict)];
    var childScript := [Reply(first), Reply(verdict)];
    var s1 := TaskSnapshot(goal, false, [Thought(TaskPlanning, plan)], None, None);
    OneLinePlan(subgoal);
    RunsOutBudget(t, Fresh(subgoal), 0, 1, childScript);
    var child := RunTask(t, subgoal, 1, childScript);
    assert child.Finished? && child.rest == [] by {
      assert Ask(childScript) == (Reply(first), [Reply(verdict)]);
      assert Ask([Reply(verdict)]) == (Reply(verdict), []);
    }
    assert RunSubtasks(t, [subgoal], 1, childScript) == AllRun([]) by {
      assert [subgoal][1..] == [];
    }
    assert replies[1..] == [Reply(subgoal)] + childScript;
    assert replies[1..][1..] == childScript;
    assert Body(t, Fresh(goal), 0, 1, replies) == Next(s1, []);
    assert Loop(t, s1, 1, 1, []) == Finished(s1, 1, []);
  }

  /** The model client: generate(prompt) hands out the next scripted reply. */
  class ModelClient {
    var replies: seq<Reply>

    constructor (script: seq<Reply>)
      ensures replies == script
    {
      replies := script;
    }

    method Generate() returns (r: Reply)
      modifies this
      ensures (r, replies) == Ask(old(replies))
    {
      if replies == [] {
        r := Unavailable(NoReply);
      } else {
        r := replies[0];
        replies := replies[1..];
      }
    }
  }

  /** The mutable TaskState dataclass. */
  class TaskState {
    var goal: string
    var completed: bool
    var thoughts: seq<Thought>
    var lastAction: Option<Action>
    var lastResult: Option<Plugins.PluginResult>

    constructor (goal: string)
      ensures Snapshot() == Fresh(goal)
    {
      this.goal := goal;
      completed := false;
      thoughts := [];
      lastAction := None;
      lastResult := None;
    }

    function Snapshot(): TaskSnapshot
      reads this
    {
      TaskSnapshot(goal, completed, thoughts, lastAction, lastResult)
    }
  }

  class AgentLoop {
    const modelClient: ModelClient
    const registry: Plugins.PluginRegistry
    const availablePlugins: seq<Plugins.PluginInfo>

    constructor (modelClient: ModelClient, registry: Plugins.PluginRegistry)
      ensures this.modelClient == modelClient && this.registry == registry
      ensures availablePlugins == Plugins.Listing(registry.plugins)
    {
      this.modelClient := modelClient;
      this.registry := registry;
      availablePlugins := registry.ListPlugins();
    }

    /**
     * execute_task(goal, max_steps): returns the final state, or the message of
     * the exception a generate() call raised. Either way it agrees with the
     * functional RunTask on the reply script, including what is left of it.
     */
    method ExecuteTask(goal: string, maxSteps: int) returns (state: TaskState, error: Option<string>)
      modifies modelClient
      ensures fresh(state)
      ensures
        var run := RunTask(registry.plugins, goal, maxSteps, old(modelClient.replies));
        && modelClient.replies == run.rest
        && (run.Finished? ==> error == None && state.Snapshot() == run.state)
        && (run.Aborted? ==> error == Some(run.error))
      decreases |modelClient.replies|, 3
    {
      ghost var t := registry.plugins;
      ghost var script := modelClient.replies;
      state := new TaskState(goal);
      error := None;
      var steps: nat := 0;
      while !state.completed && steps < maxSteps
        invariant fresh(state) && error == None
        invariant t == registry.plugins
        invariant |modelClient.replies| <= |script|
        invariant Loop(t, state.Snapshot(), steps, maxSteps, modelClient.replies) == Loop(t, Fresh(goal), 0, maxSteps, script)
        decreases maxSteps - steps
      {
        error := Round(state, steps, maxSteps);
        if error.Some? {
          return;
        }
        steps := steps + 1;
      }
    }

    /**
     * One pass of the loop body: think, then plan, act or reflect on a second
     * reply; the state it leaves is the one Body describes.
     */
    method Round(state: TaskState, steps: nat, maxSteps: int) returns (error: Option<string>)
      requires steps < maxSteps
      modifies modelClient, state
      ensures
        var r := Body(registry.plugins, old(state.Snapshot()), steps, maxSteps, old(modelClient.replies));
        && modelClient.replies == r.rest
        && (r.Stop? ==> error == Some(r.error))
        && (r.Next? ==> error == None && state.Snapshot() == r.state)
      decreases |modelClient.replies|, 2
    {
      ghost var t := registry.plugins;
      ghost var s0 := state.Snapshot();
      ghost var r0 := modelClient.replies;
      error := None;
      var first := modelClient.Generate();
      if first.Unavailable? {
        return Some(first.message);
      }
      var thought := Think(first.text);
      state.thoughts := state.thoughts + [thought];
      if thought.kind == TaskPlanning {
        var second := modelClient.Generate();
        if second.Unavailable? {
          return Some(second.message);
        }
        error := RunPlan(PlanSubtasks(second.text), maxSteps - steps, |r0|);
      } else if thought.kind == ActionSelection {
        var second := modelClient.Generate();
        if second.Unavailable? {
          return Some(second.message);
        }
        var action := SelectAction(second.text);
        if action.Some? {
          state.lastAction := action;
          var result := registry.ExecutePlugin(action.value.plugin, action.value.parameters);
          assert result == Plugins.Execute(t, ClickAction.plugin, ClickAction.parameters);
          state.lastResult := Some(result);
          var observation := Observe(state.lastResult);
          state.thoughts := state.thoughts + [observation];
        }
      } else if thought.kind == Reflection {
        var second := modelClient.Generate();
        if second.Unavailable? {
          return Some(second.message);
        }
        state.completed := Reflect(second.text);
      }
    }

    /**
     * The for-loop over a plan's sub-goals: each runs as a task of its own
     * with `budget`, its state is dropped, and the first exception stops it.
     * `bound` only measures termination: replies were taken since the caller began.
     */
    method RunPlan(subtasks: seq<string>, budget: int, ghost bound: nat) returns (error: Option<string>)
      requires |modelClient.replies| < bound
      modifies modelClient
      ensures
        var run := RunSubtasks(registry.plugins, subtasks, budget, old(modelClient.replies));
        && modelClient.replies == run.rest
        && (run.AllRun? ==> error == None)
        && (run.SubtaskFailed? ==> error == Some(run.error))
      decreases bound, 1
    {
      ghost var t := registry.plugins;
      ghost var r2 := modelClient.replies;
      var i := 0;
      while i < |subtasks|
        invariant i <= |subtasks|
        invariant t == registry.plugins
        invariant |modelClient.replies| <= |r2|
        invariant RunSubtasks(t, subtasks[i..], budget, modelClient.replies) == RunSubtasks(t, subtasks, budget, r2)
      {
        assert subtasks[i..][1..] == subtasks[i + 1..];
        var _, e := ExecuteTask(subtasks[i], budget);
        if e.Some? {
          return e;
        }
        i := i + 1;
      }
      return None;
    }
  }
}
