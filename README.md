# waspnest execution engine, in Dafny

This project models the execution engine of waspnest. An `Agent` threads an
immutable `State` through an ordered list of `Skill`s until no skill applies or
a step cap is reached. Along the way it fires lifecycle hooks on a `Hooks`
registry.

The project has six files:

- `state.dfy` (module `StateModel`): the frozen `State` record and the
  `with_context` merge, as a datatype and a function, with the merge laws.
- `hooks.dfy` (module `Hooks`): the hook registry.
  - The class `Hooks` holds a map from hook point to callback list, plus a
    ghost trace of every callback call.
  - `On` appends to a point's list. `Trigger` is the loop that calls the
    callbacks and re-dispatches failures to ERROR.
  - The pure functions `RunHooks`, `TriggerCalls` and `Fired` say which calls a
    trigger makes. The lemmas are stated over them.
- `skill.dfy` (module `Skills`): a skill as the dispatch loop sees it (name,
  input and output type tags, `execute`), `can_handle`, and the request that
  `ask` builds.
- `dispatch.dfy` (module `Dispatch`): what `Agent.execute` computes, as pure
  functions.
  - `Offer` offers one skill the current state, `ScanFrom` is one step, `Loop`
    is the `while` loop, and `Run` is the whole call.
  - Each returns the resulting state and the hook triggers it issued.
  - The lemmas about the engine's behaviour are proved over these functions.
- `core.dfy` (module `Core`): the classes `Skill` and `Agent`.
  - `Agent`'s constructor attaches every skill to the agent.
  - `Agent.Execute` is the imperative `while` loop, with its inner `for` over
    the skills (`Step`) and the body of that loop (`TrySkill`).
  - Each is proved against its counterpart in `Dispatch`, both for the state it
    returns and for the callback calls it adds to the registry's trace.
- `wrappers.dfy`: `Option` and `Result`.

The language-model client, the clock and the callbacks' behaviour are
parameters:

- `Ask` returns the request it would send.
- One opaque `now` value stands for every clock reading.
- A `Behaviour` says, for each callback and keyword arguments, whether the call
  raises.

## Model

| member | source | states |
|---|---|---|
| StateModel.OfData | waspnest/core/state.py:15-17 | a state built from a payload alone has that payload and empty metadata and context |
| StateModel.WithContext | waspnest/core/state.py:19-23 | the payload and metadata are unchanged; the new key set is the union of the old keys and the update keys; every updated key maps to its update (updates win); every other old key keeps its value |
| StateModel.WithContextEmpty | waspnest/core/state.py:22 | merging no updates gives back an equal state |
| StateModel.WithContextCompose | waspnest/core/state.py:22 | two successive merges equal one merge of `u1` then `u2`, with `u2` winning |
| StateModel.WithContextIdempotent | waspnest/core/state.py:22 | applying the same updates twice equals applying them once |
| Hooks.Handle | waspnest/hooks.py:23-26 | defining function of one iteration of `trigger`'s loop: the call, then, if it raised `e`, one call per ERROR callback with `exception=e, hook=cb`; it matches the code while ERROR callbacks do not raise |
| Hooks.RunHooks | waspnest/hooks.py:22-26 | defining function of `trigger`'s loop: `Handle` for each callback, in list order |
| Hooks.TriggerCalls | waspnest/hooks.py:20-26 | defining function of `trigger(p, **args)`: `RunHooks` over the callbacks registered at `p`, re-dispatching to those registered at ERROR |
| Hooks.Hooks.constructor | waspnest/hooks.py:14-15 | every hook point has a list, and it is empty; no call has been made |
| Hooks.Hooks.On | waspnest/hooks.py:17-18 | the callback is appended at the end of that point's list; every other point's list is unchanged; no call is made |
| Hooks.Hooks.Trigger | waspnest/hooks.py:20-26 | the registry is unchanged; the calls made are exactly `TriggerCalls`: each callback in registration order, each raising one followed at once by the ERROR callbacks with `exception` and `hook`; it terminates and never propagates a callback's exception, provided ERROR callbacks do not raise |
| Hooks.RunHooksSplit | waspnest/hooks.py:22-26 | proof helper: running a callback list in two parts makes the calls of the first part, then those of the second |
| Hooks.RunHooksQuiet | waspnest/hooks.py:22-24 | when no callback raises, each is called exactly once, in order, with the same arguments |
| Hooks.TriggerQuiet | waspnest/hooks.py:20-24 | a trigger where no callback raises calls every registered callback once, in registration order, with the same arguments |
| Hooks.TriggerRaise | waspnest/hooks.py:22-26 | when the i-th callback raises `e` and the ERROR callbacks do not raise, the trigger calls the callbacks before it, then it, then the ERROR callbacks with `exception=e, hook=cb`, then the callbacks after it |
| Hooks.RunHooksAt | waspnest/hooks.py:22-26 | at a point other than ERROR, and with ERROR callbacks that do not raise, the calls made at that point are one per callback, whether or not some of them raise |
| Hooks.TriggerCallsEveryCallback | waspnest/hooks.py:20-26 | a raising callback does not stop later ones: the calls `trigger(p)` makes at `p` are one per registered callback, in registration order, with the same arguments |
| Hooks.RegisteredTwiceCalledTwice | waspnest/hooks.py:17-18 | registering a quiet callback twice more makes a trigger, where no callback raises, call it twice more at the end |
| Hooks.NotifyAt | waspnest/hooks.py:22-24 | lemma about `Notify`: the i-th call of a callback run is the i-th callback, with the trigger's arguments |
| Hooks.NotifySplit | waspnest/hooks.py:22-24 | proof helper: calling the callbacks of two lists one after the other calls those of the first list, then those of the second |
| Hooks.CallsAtSplit | waspnest/hooks.py:20-26 | proof helper: filtering the calls of two runs by hook point filters each run separately |
| Hooks.NotifyElsewhere | waspnest/hooks.py:25-26 | proof helper: the ERROR re-dispatch adds no call at any other point |
| Hooks.NotifyAtItself | waspnest/hooks.py:22-24 | proof helper: every call made at a point is at that point |
| Hooks.FiredSplit | waspnest/hooks.py:20-26 | proof helper: triggers issued one after another make their calls one after another |
| Skills.Execute | waspnest/core/skill.py:24-26 | the base class's `execute` always raises `NotImplementedError` |
| Skills.CanHandleOnlyData | waspnest/core/skill.py:20-22 | `can_handle` depends only on the payload's type, not on context or metadata |
| Skills.CanHandle | waspnest/core/skill.py:20-22 | defining predicate of `can_handle`: a skill handles a state exactly when the payload's type tag is the skill's input type |
| Core.Skill.constructor | waspnest/core/skill.py:13-18 | the name is the given one if it is non-empty, otherwise the class name; no agent is attached; the input and output types are recorded |
| Core.Skill.Ask | waspnest/core/skill.py:28-49 | for options that are not `ask`'s own parameter names: an unattached skill fails with `RuntimeError("Skill must be attached to an agent")`; an attached one fails with `TypeError` exactly when an option is named `model` or `messages`; otherwise it sends `[system, user]` for a non-empty system prompt and `[user]` otherwise, with the agent's client and model, the response model and the options |
| Core.SpecsOf | waspnest/core/agent.py:52 | proof helper: the skills as the loop sees them, in list order, one for each |
| Core.Agent.constructor | waspnest/core/agent.py:11-29 | the skills are the given list in order; every skill's `agent` is this agent, with nothing else about the skills changed; the registry is fresh with every list empty; the model defaults to `gpt-4o-mini` |
| Core.Agent.Execute | waspnest/core/agent.py:31-106 | the state returned is `Run`'s state for the agent's skills; the callback calls added to the registry's trace are exactly those `Run`'s triggers make; the registry and the skills are unchanged, since the method may change only the registry's trace |
| Core.Agent.Step | waspnest/core/agent.py:49-92 | one pass of the `for` loop: the state, whether a skill ran and the callback calls are those `ScanFrom` describes |
| Core.Agent.TrySkill | waspnest/core/agent.py:53-92 | one skill: the state, whether it produced a state and the callback calls are those `Offer` describes |
| Dispatch.Offer | waspnest/core/agent.py:53-92 | defining function of one iteration of the `for` loop: skip, or stamp and trigger SKILL_START, then execute and stamp and trigger SKILL_END, or nothing more, or stamp and trigger ERROR |
| Dispatch.ScanFrom | waspnest/core/agent.py:49-92 | defining function of one pass of the `for` loop from skill `i`: `Offer` to each skill in turn until one returns a state; the index it reports is one of the skills scanned |
| Dispatch.Loop | waspnest/core/agent.py:46-98 | defining function of the `while` loop: scan until a scan runs no skill or `max_steps` steps are taken |
| Dispatch.LastStart | waspnest/core/agent.py:46-98 | proof helper: the state the loop's last scan starts from |
| Dispatch.Run | waspnest/core/agent.py:31-106 | defining function of `execute`: merge the caller's context, stamp, trigger PRE_EXECUTE with the original state, loop, stamp, trigger POST_EXECUTE with the returned state |
| Dispatch.Merge | waspnest/core/agent.py:36-38 | merging the caller's context only when it is non-empty equals merging it always, so `None` and `{}` behave alike |
| Dispatch.OfferEffect | waspnest/core/agent.py:52-92 | a skill that cannot handle the state is skipped with no trigger; one that returns `None` or raises leaves payload and metadata unchanged and keeps every context key; SKILL_END is triggered exactly when a state is returned; PRE_EXECUTE and POST_EXECUTE are never triggered there |
| Dispatch.OfferRaised | waspnest/core/agent.py:81-92 | a raising skill does not end the step: the context gets `error=str(e)`, `error_skill` and `error_step`; the payload is unchanged; the last trigger is ERROR with the exception, the skill and the stamped state |
| Dispatch.OfferThreads | waspnest/core/agent.py:57-92 | a skill whose returned context extends the context it was given keeps every context key across an offer, whatever it does; if it also returns the metadata it was given, the metadata is kept |
| Dispatch.ScanChoosesFirst | waspnest/core/agent.py:52-79 | a step runs skill j if and only if j is the first skill, in list order, that can handle the state it is offered and returns a state; every skill before it was skipped, returned `None` or raised |
| Dispatch.ChosenCanHandle | waspnest/core/agent.py:52-79 | the skill a step runs can handle the payload the step started with |
| Dispatch.ScanEffect | waspnest/core/agent.py:52-96 | a step runs at most one skill: SKILL_END is triggered once if a skill returned a state, never otherwise; a step where none did leaves payload and metadata unchanged |
| Dispatch.ScanThreads | waspnest/core/agent.py:52-92 | with skills whose returned context extends the context they were given, a step keeps every context key; if they also return the metadata they were given, it keeps the metadata |
| Dispatch.LoopBounds | waspnest/core/agent.py:46-98 | the loop never goes past `max_steps`, and takes no step once there |
| Dispatch.LoopCounts | waspnest/core/agent.py:46-98 | the number of steps taken equals the number of SKILL_END triggers; the loop triggers neither PRE_EXECUTE nor POST_EXECUTE |
| Dispatch.LoopThreads | waspnest/core/agent.py:46-98 | with skills whose returned context extends the context they were given, the loop keeps every context key; if they also return the metadata they were given, it keeps the metadata |
| Dispatch.RunSteps | waspnest/core/agent.py:46-103 | `total_steps` equals the number of skills that returned a state; it is at most `max_steps`, and 0 when `max_steps` is not positive; the final context holds it and `execution_completed_at` |
| Dispatch.RunBracket | waspnest/core/agent.py:44-104 | PRE_EXECUTE is triggered once, first, with the caller's original state rather than the stamped one; POST_EXECUTE once, last, with exactly the state returned |
| Dispatch.RunCalls | waspnest/core/agent.py:44-104 | with ERROR callbacks that do not raise, the callback calls of a run begin with those of the PRE_EXECUTE trigger on the original state and end with those of the POST_EXECUTE trigger on the returned state |
| Dispatch.RunKeeps | waspnest/core/agent.py:36-103 | with skills whose returned context extends the context they were given, every key of the merged and stamped starting context is still in the final context, and every such key the agent does not write keeps its value; if the skills also return the metadata they were given, the metadata is the initial one |
| Dispatch.RunKeepsContext | waspnest/core/agent.py:36-104 | with skills whose returned context extends the context they were given, the final context holds every key of the initial context and of the caller's context, plus `max_steps`, `execution_started_at`, `execution_completed_at` and `total_steps`; a caller key the agent does not write keeps the caller's value, and any other initial key keeps its value; if the skills also return the metadata they were given, the metadata is the initial one |
| Dispatch.TaggerPassesContext | waspnest/core/agent.py:66-74 | a skill that replaces the metadata but passes the context on meets the context hypothesis of `RunKeepsContext` and not the metadata one |
| Dispatch.RunNoSkills | waspnest/core/agent.py:46-104 | with no skills, the run takes no step, returns the input payload and stamps `execution_completed_at` |
| Dispatch.LoopRaising | waspnest/core/agent.py:81-96 | a lone skill that raises ends the loop after one scan, with no step taken |
| Dispatch.RunRaisingSkill | waspnest/core/agent.py:81-92 | a lone skill that always raises does not fail the run: no step is taken, the payload is unchanged and `error`, `error_skill`, `error_step` are recorded |
| Dispatch.ChainFirst | waspnest/core/agent.py:52-79 | on a Q payload, the Q-to-An skill runs and yields an An payload |
| Dispatch.ChainSecond | waspnest/core/agent.py:52-79 | on an An payload, the first skill is skipped and the An-to-F skill runs |
| Dispatch.ChainIdle | waspnest/core/agent.py:94-96 | on an F payload, neither skill applies and the step changes nothing |
| Dispatch.LoopEndsIdle | waspnest/core/agent.py:46-98 | the loop ends before `max_steps` only when the scan of its last step, from the state `LastStart` gives, ran no skill; that scan produced the final state |
| Dispatch.LoopIdleEnds | waspnest/core/agent.py:94-96 | a step in which no skill returns a state ends the loop with no further step, keeping that step's state and triggers |
| Dispatch.LoopBusyRunsToCap | waspnest/core/agent.py:46-98 | when every scan from a payload of a closed set of types runs a skill and stays in that set, a loop starting in it takes exactly `max_steps` steps |
| Dispatch.LoopSelfLoop | waspnest/core/agent.py:46-98 | a lone skill that always maps its input type to itself runs at every step, and the loop takes exactly `max_steps` steps |
| Dispatch.SelfLoopExists | waspnest/core/agent.py:46-98 | a skill returning the state it is given maps its input type to itself, so the hypothesis of `LoopSelfLoop` can be met |
| Dispatch.LoopChain | waspnest/core/agent.py:46-98 | the loop over those two skills takes 2 steps and ends on F when `max_steps >= 2`, and takes 1 step and ends on An when `max_steps == 1` |
| Dispatch.RunChain | waspnest/core/agent.py:31-106 | the same for the whole run, as the two-skill chain and max-steps scenarios of tests/test_agent.py:16-32 expect |
| Dispatch.RunAfterLoop | waspnest/core/agent.py:100-104 | proof helper: once the loop has ended, the run's result is the stamped final state, with PRE_EXECUTE, the loop's triggers and POST_EXECUTE in that order |

## Left out

- The language-model client: the `completion:kwargs` and `completion:error` bridges in `Agent.__init__` are foreign callbacks, and so is `client.chat.completions.create`. `Ask` returns the request it would send, and the LLM_REQUEST point is only declared. So Core.Agent.Execute, Core.Agent.Step and Core.Agent.TrySkill describe exactly the callback calls of a run only for skills whose `execute` makes no client call: in the code, a skill that calls `ask` also fires LLM_REQUEST, and ERROR on a client failure, through those bridges, between its SKILL_START and SKILL_END.
- Timestamps: every `datetime.now().isoformat()` reading is one opaque `now` value. Only the presence of the keys is modelled, not the order of the times.
- Python reflection: `__orig_bases__` becomes explicit input and output type tags. `isinstance` is equality of type tags, with no subclassing.
- The `@skill` decorator is not defined in the package. No code in the package checks a skill's input or output types beyond `can_handle`, and a skill is assumed to return a `State` or `None`.
- A skill whose `execute` returns something other than `None` or a `State` is not modelled. agent.py:68 takes the value as the current state. The `with_context` call at agent.py:70 then raises, and the handler at agent.py:81 catches it. The `with_context` call at agent.py:83 then raises again, outside any `try`, so `execute` itself fails.
- The example scripts, the pydantic models and the test fixtures.
- Hooks.Hooks.Trigger: requires that ERROR callbacks never raise, and so do Core.Agent.Execute, Core.Agent.Step and Core.Agent.TrySkill, which trigger hooks. The code has no guard: a raising ERROR callback re-enters `trigger(ERROR)` without bound, until Python's recursion limit.
- Callbacks are modelled by whether they raise, as a function of their arguments. Their own side effects are not modelled, including registering further callbacks on the same registry while a trigger is running.
- Skills appear in hook keyword arguments by name, not as the skill object itself.
- A skill's `execute` is a function of the state it is given. A skill that changes its own fields, or the agent's, while executing is not modelled.
- Dispatch.RunKeepsContext: it is stated only for skills whose returned context extends the context they were given. A skill that returns a state with a fresh context drops the caller's keys, and the code does not prevent that. Its metadata clause further needs skills that return the metadata they were given.
- `State` is a value in the model, so the frozen dataclass's errors on field assignment are not modelled.
- Only `Exception` is caught, at hooks.py:25 and agent.py:81: a `BaseException` such as `KeyboardInterrupt` or `SystemExit` raised by a skill or a callback propagates out of `trigger` and `execute`. The model has no such exceptions, and every raise it models is caught.
- StateModel.WithContext: it accepts an update named `self`, while `with_context(**updates)` (state.py:19) raises `TypeError` for one. So `execute` raises at agent.py:38 for a caller context holding the key `self`, which Dispatch.Merge does not model.
- Core.Skill.Ask: the `TypeError` for a clashing option carries one fixed message; Python's message also names the function and the argument. An option named after one of `ask`'s own parameters (`prompt`, `response_model`, `system_prompt`) is excluded by a precondition: Python binds it to that parameter, so it never reaches the options, and a repeated one fails at the call before `ask` runs.
- Shared dictionaries: `with_context` shares `data` and `metadata` with the state it copies (state.py:22), and a skill may pass `state.context` itself on. A skill or callback that mutates one of these dicts in place therefore changes earlier states too, the caller's `initial_state` included. The model treats dicts and payloads as values, so it captures neither this aliasing nor any in-place update.
- Integers are unbounded, as in Python.
