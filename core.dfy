/**
 * The two objects of waspnest/core: a `Skill`, which an `Agent` attaches itself
 * to, and the `Agent`, which owns the skills and a hook registry and runs the
 * dispatch loop. They refer to each other, so they share a module.
 */
module Core {

  import opened Wrappers
  import opened StateModel
  import Hooks
  import opened Skills
  import opened Dispatch

  const DefaultModel := "gpt-4o-mini"
  const DefaultMaxSteps := 10

  /** A skill object: its name, its declared types, its `execute`, and the agent it is attached to. */
  class Skill {
    var name: string
    var agent: Agent?
    var inputType: TypeTag
    var outputType: TypeTag
    const body: Body

    /**
     * `Skill(name)`: the given name, or the class name when none (or an empty one)
     * is given; not attached to any agent. The types are the subclass's generic
     * arguments.
     */
    constructor (className: string, given: Option<string>, inputType: TypeTag, outputType: TypeTag, body: Body)
      ensures given.Some? && given.value != "" ==> name == given.value
      ensures given.None? || given.value == "" ==> name == className
      ensures agent == null
      ensures this.inputType == inputType && this.outputType == outputType && this.body == body
    {
      name := if given.Some? && given.value != "" then given.value else className;
      agent := null;
      this.inputType := inputType;
      this.outputType := outputType;
      this.body := body;
    }

    /** What the dispatch loop sees of this skill. */
    function Spec(): SkillSpec
      reads this
    {
      SkillSpec(name, inputType, outputType, body)
    }

    /**
     * `ask(prompt, response_model, system_prompt, **kwargs)`: fails with
     * `RuntimeError` when the skill is not attached, and with `TypeError` when an
     * extra option repeats one of the keywords `ask` passes itself; otherwise the
     * request sent to the agent's client with the agent's model: a system message
     * first when a non-empty system prompt is given, then the user's prompt.
     */
    method Ask(prompt: string, responseModel: TypeTag, systemPrompt: Option<string>, options: Dict)
      returns (r: Answer)
      requires options.Keys !! AskParameters
      ensures r.Success? <==> agent != null && options.Keys !! AskKeywords
      ensures agent == null ==> r == Failure(NotAttached)
      ensures agent != null && !(options.Keys !! AskKeywords) ==> r == Failure(DuplicateKeyword)
      ensures r.Success? ==>
        && agent != null
        && r.value.client == agent.client && r.value.model == agent.model
        && r.value.responseModel == responseModel && r.value.options == options
        && (systemPrompt.Some? && systemPrompt.value != "" ==>
              r.value.messages == [Message("system", systemPrompt.value), Message("user", prompt)])
        && (systemPrompt.None? || systemPrompt.value == "" ==> r.value.messages == [Message("user", prompt)])
    {
      if agent == null {
        return Failure(NotAttached);
      }
      var messages: seq<Message> := [];
      if systemPrompt.Some? && systemPrompt.value != "" {
        messages := messages + [Message("system", systemPrompt.value)];
      }
      messages := messages + [Message("user", prompt)];
      if !(options.Keys !! AskKeywords) {
        return Failure(DuplicateKeyword);
      }
      r := Success(Request(agent.client, agent.model, messages, responseModel, options));
    }
  }

  /** The skills as the dispatch loop sees them, in order. */
  function SpecsOf(skills: seq<Skill>): (r: seq<SkillSpec>)
    reads skills
    ensures |r| == |skills|
    ensures forall i :: 0 <= i < |skills| ==> r[i] == skills[i].Spec()
  {
    if skills == [] then [] else [skills[0].Spec()] + SpecsOf(skills[1..])
  }

  /** An agent: its skills in order, the language-model client and model, and its hook registry. */
  class Agent {
    var skills: seq<Skill>
    var client: nat
    var model: string
    var hooks: Hooks.Hooks

    /** `Agent(skills, client, model)`: a fresh empty registry, and every skill attached to this agent. */
    constructor (skills: seq<Skill>, client: nat, model: string := DefaultModel)
      modifies skills
      ensures this.skills == skills && this.client == client && this.model == model
      ensures fresh(hooks) && hooks.Valid() && hooks.trace == []
      ensures forall p: Hooks.HookPoint :: hooks.hooks[p] == []
      ensures forall i :: 0 <= i < |skills| ==> skills[i].agent == this
      ensures forall i :: 0 <= i < |skills| ==> skills[i].Spec() == old(skills[i].Spec())
    {
      this.skills := skills;
      this.client := client;
      this.model := model;
      hooks := new Hooks.Hooks();
      new;
      for i := 0 to |skills|
        invariant this.skills == skills && this.client == client && this.model == model
        invariant fresh(hooks) && hooks.Valid() && hooks.trace == []
        invariant forall p: Hooks.HookPoint :: hooks.hooks[p] == []
        invariant forall j :: 0 <= j < i ==> skills[j].agent == this
        invariant forall j :: 0 <= j < |skills| ==> skills[j].Spec() == old(skills[j].Spec())
      {
        skills[i].agent := this;
      }
    }

    /**
     * `execute(initial_state, max_steps, context)`, with `extra` for `context`
     * (empty for `None`), `now` for every clock reading and `raises` for what the
     * hook callbacks do. The state returned and the callback calls made are those
     * `Run` describes.
     */
    method Execute(initial: State, maxSteps: int := DefaultMaxSteps, extra: Dict, now: Value, raises: Hooks.Behaviour)
      returns (result: State)
      requires hooks.Valid() && Hooks.QuietOn(hooks.hooks[Hooks.Error], raises)
      modifies hooks`trace
      ensures hooks.hooks == old(hooks.hooks)
      ensures result == Run(old(SpecsOf(skills)), initial, maxSteps, extra, now).state
      ensures hooks.trace == old(hooks.trace) + Hooks.Fired(hooks.hooks, Run(old(SpecsOf(skills)), initial, maxSteps, extra, now).firings, raises)
    {
      var specs := SpecsOf(skills);
      var cur := initial;
      if extra != map[] {
        cur := WithContext(cur, extra);
      }
      cur := WithContext(cur, RunStamps(maxSteps, now));
      ghost var start := cur;
      assert start == WithContext(Merge(initial, extra), RunStamps(maxSteps, now));
      hooks.Trigger(Hooks.PreExecute, StateKwargs(initial), raises);
      ghost var pre := Hooks.Firing(Hooks.PreExecute, StateKwargs(initial));
      Hooks.FiredOne(hooks.hooks, pre, raises);
      ghost var fired: seq<Hooks.Firing> := [];
      ghost var all := [pre];

      var steps: nat := 0;
      while steps < maxSteps
        invariant hooks.Valid() && hooks.hooks == old(hooks.hooks)
        invariant LoopSoFar(specs, start, maxSteps, now, steps, cur, fired)
        invariant all == [pre] + fired
        invariant hooks.trace == old(hooks.trace) + Hooks.Fired(hooks.hooks, all, raises)
        decreases maxSteps - steps
      {
        ghost var stepStart := cur;
        ghost var t1 := hooks.trace;
        var executed;
        cur, executed := Step(specs, cur, steps, now, raises);
        ghost var sc := ScanFrom(specs, 0, stepStart, steps, now);
        Hooks.TraceExtend(old(hooks.trace), t1, hooks.trace, hooks.hooks, all, sc.firings, raises);
        Regroup([pre], fired, sc.firings);
        if !executed {
          LoopSoFarStop(specs, start, maxSteps, now, steps, stepStart, fired);
          fired, all := fired + sc.firings, all + sc.firings;
          break;
        }
        LoopSoFarNext(specs, start, maxSteps, now, steps, stepStart, fired);
        fired, all := fired + sc.firings, all + sc.firings;
        steps := steps + 1;
      }
      if steps >= maxSteps {
        LoopSoFarEnd(specs, start, maxSteps, now, steps, cur, fired);
      }
      assert Loop(specs, start, 0, maxSteps, now) == Progress(cur, steps, fired) && all == [pre] + fired;
      RunAfterLoop(specs, initial, maxSteps, extra, now, start, cur, steps, fired);

      cur := WithContext(cur, DoneStamps(steps, now));
      ghost var t1 := hooks.trace;
      hooks.Trigger(Hooks.PostExecute, StateKwargs(cur), raises);
      ghost var post := Hooks.Firing(Hooks.PostExecute, StateKwargs(cur));
      Hooks.FiredOne(hooks.hooks, post, raises);
      Hooks.TraceExtend(old(hooks.trace), t1, hooks.trace, hooks.hooks, all, [post], raises);
      assert Run(specs, initial, maxSteps, extra, now).firings == all + [post];
      result := cur;
    }

    /**
     * One pass of the `for skill in self.skills` loop: each skill in turn until one
     * returns a state. The new state, whether a skill ran, and the callback calls
     * made are those `ScanFrom` describes.
     */
    method Step(specs: seq<SkillSpec>, cur: State, step: nat, now: Value, raises: Hooks.Behaviour)
      returns (next: State, executed: bool)
      requires hooks.Valid() && Hooks.QuietOn(hooks.hooks[Hooks.Error], raises)
      modifies hooks`trace
      ensures hooks.hooks == old(hooks.hooks)
      ensures var sc := ScanFrom(specs, 0, cur, step, now);
        next == sc.state && (executed <==> sc.chosen.Some?)
      ensures hooks.trace == old(hooks.trace) + Hooks.Fired(hooks.hooks, ScanFrom(specs, 0, cur, step, now).firings, raises)
    {
      next := cur;
      executed := false;
      ghost var done: seq<Hooks.Firing> := [];
      for i := 0 to |specs|
        invariant hooks.Valid() && hooks.hooks == old(hooks.hooks)
        invariant !executed
        invariant ScanSoFar(specs, cur, step, now, i, next, done)
        invariant hooks.trace == old(hooks.trace) + Hooks.Fired(hooks.hooks, done, raises)
      {
        ghost var offered := next;
        ghost var o := Offer(specs[i], offered, step, now);
        ghost var t1 := hooks.trace;
        var produced;
        next, produced := TrySkill(specs[i], next, step, now, raises);
        Hooks.TraceExtend(old(hooks.trace), t1, hooks.trace, hooks.hooks, done, o.firings, raises);
        if produced {
          ScanSoFarChosen(specs, cur, step, now, i, offered, done);
          executed := true;
          return;
        }
        ScanSoFarNext(specs, cur, step, now, i, offered, done);
        done := done + o.firings;
      }
      ScanSoFarEnd(specs, cur, step, now, next, done);
    }

    /**
     * The body of that loop for one skill: skip it if it cannot handle the state;
     * otherwise stamp, trigger SKILL_START and execute it, then either stamp the
     * returned state and trigger SKILL_END, or move on after `None`, or record the
     * exception and trigger ERROR. The result and the callback calls made are
     * those `Offer` describes.
     */
    method TrySkill(sp: SkillSpec, cur: State, step: nat, now: Value, raises: Hooks.Behaviour)
      returns (next: State, produced: bool)
      requires hooks.Valid() && Hooks.QuietOn(hooks.hooks[Hooks.Error], raises)
      modifies hooks`trace
      ensures hooks.hooks == old(hooks.hooks)
      ensures next == Offer(sp, cur, step, now).state && produced == Offer(sp, cur, step, now).produced
      ensures hooks.trace == old(hooks.trace) + Hooks.Fired(hooks.hooks, Offer(sp, cur, step, now).firings, raises)
    {
      next, produced := cur, false;
      if !CanHandle(sp, cur) {
        return;
      }
      next := WithContext(next, StartStamps(sp.name, step, now));
      hooks.Trigger(Hooks.SkillStart, SkillKwargs(sp, next), raises);
      ghost var announce := Hooks.Firing(Hooks.SkillStart, SkillKwargs(sp, next));
      Hooks.FiredOne(hooks.hooks, announce, raises);
      ghost var t1 := hooks.trace;
      match Skills.Execute(sp, next)
      case Produced(result) =>
        next := WithContext(result, EndStamps(sp.name, step, now));
        hooks.Trigger(Hooks.SkillEnd, SkillKwargs(sp, next), raises);
        ghost var closing := Hooks.Firing(Hooks.SkillEnd, SkillKwargs(sp, next));
        Hooks.FiredOne(hooks.hooks, closing, raises);
        Hooks.TraceExtend(old(hooks.trace), t1, hooks.trace, hooks.hooks, [announce], [closing], raises);
        produced := true;
      case NoResult =>
      case Raised(e) =>
        next := WithContext(next, ErrorStamps(e, sp.name, step));
        hooks.Trigger(Hooks.Error, ErrorKwargs(e, sp, next), raises);
        ghost var report := Hooks.Firing(Hooks.Error, ErrorKwargs(e, sp, next));
        Hooks.FiredOne(hooks.hooks, report, raises);
        Hooks.TraceExtend(old(hooks.trace), t1, hooks.trace, hooks.hooks, [announce], [report], raises);
    }
  }

  /**
   * Associativity of `+`, which the verifier knows but finds only at great cost
   * inside `Execute`'s loop; calling it there states the one instance needed.
   */
  lemma Regroup<T>(a: seq<T>, b: seq<T>, c: seq<T>)
    ensures a + b + c == a + (b + c)
  {
  }

}
