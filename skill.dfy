/**
 * The value-level part of a skill (waspnest/core/skill.py): what a skill is to
 * the dispatch loop (its name, its declared input and output types and its
 * `execute`), the type test `can_handle`, and the request `ask` hands to the
 * language-model client. The mutable skill object is `Core.Skill`.
 */
module Skills {

  import opened StateModel
  import opened Hooks
  import Wrappers

  /** What `skill.execute(state)` does: return a state, return `None`, or raise. */
  datatype Outcome = Produced(state: State) | NoResult | Raised(exception: Exception)

  /** The base class's `execute`, or a subclass's override of it. */
  datatype Body = Unimplemented | Implemented(run: State -> Outcome)

  /** A skill as the agent sees it. */
  datatype SkillSpec = SkillSpec(name: string, inputType: TypeTag, outputType: TypeTag, body: Body)

  /** `raise NotImplementedError`: `str(e)` is empty. */
  const NotImplemented := Exception("NotImplementedError", "")

  /** `can_handle(state)`: `isinstance(state.data, self.input_type)`. */
  predicate CanHandle(sp: SkillSpec, s: State)
  {
    s.data.tag == sp.inputType
  }

  /** `skill.execute(state)`; the base class always raises `NotImplementedError`. */
  function Execute(sp: SkillSpec, s: State): (r: Outcome)
    ensures sp.body.Unimplemented? ==> r == Raised(NotImplemented)
  {
    match sp.body
    case Unimplemented => Raised(NotImplemented)
    case Implemented(run) => run(s)
  }

  /** `can_handle` looks at the payload's type and at nothing else. */
  lemma CanHandleOnlyData(sp: SkillSpec, s: State, t: State)
    requires s.data.tag == t.data.tag
    ensures CanHandle(sp, s) <==> CanHandle(sp, t)
  {
  }

  /** One chat message. */
  datatype Message = Message(role: string, content: string)

  /** What `ask` hands to `client.chat.completions.create`. */
  datatype Request = Request(client: nat, model: string, messages: seq<Message>, responseModel: TypeTag, options: Dict)

  /** What `ask` comes back with: the request it sends, or the exception it raises. */
  type Answer = Wrappers.Result<Request, Exception>

  const NotAttached := Exception("RuntimeError", "Skill must be attached to an agent")

  /**
   * The keyword arguments `ask` passes to `create` besides the options that are not
   * `ask`'s own parameters; an option of the same name clashes with them.
   */
  const AskKeywords: set<string> := {"model", "messages"}

  /** `ask`'s own parameter names, which Python binds to the parameters and never collects into `**kwargs`. */
  const AskParameters: set<string> := {"self", "prompt", "response_model", "system_prompt"}

  /** The `TypeError` Python raises when a call gets two values for one keyword argument. */
  const DuplicateKeyword := Exception("TypeError", "got multiple values for keyword argument")

}
