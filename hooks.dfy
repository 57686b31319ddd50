/**
 * The hook registry (waspnest/hooks.py): a dictionary from a closed set of hook
 * points to the ordered list of callbacks registered there. `trigger` calls them
 * in registration order; a callback that raises is reported by re-triggering the
 * ERROR point with the exception and the failing callback, and the remaining
 * callbacks still run.
 *
 * Callbacks are abstract ids; what a callback does when called is given by a
 * `Behaviour`, which says whether the call raises. The calls made are recorded
 * in a ghost trace.
 */
module Hooks {

  import opened Wrappers
  import opened StateModel

  datatype HookPoint = PreExecute | PostExecute | SkillStart | SkillEnd | Error | LlmRequest

  /** A Python exception: its class name and `str(e)`. */
  datatype Exception = Exception(kind: string, message: string)

  type CallbackId = nat

  /** The keyword arguments passed to callbacks. */
  datatype Arg =
    | StateArg(state: State)
    | SkillArg(skillName: string)
    | ExceptionArg(exception: Exception)
    | HookArg(hook: CallbackId)
    | ValueArg(value: Value)

  type Kwargs = map<string, Arg>

  type Registry = map<HookPoint, seq<CallbackId>>

  /** What calling a callback with some keyword arguments does: `Some(e)` when it raises `e`. */
  type Behaviour = (CallbackId, Kwargs) -> Option<Exception>

  /** One call of a callback, as seen in the trace. */
  datatype Call = Call(point: HookPoint, hook: CallbackId, args: Kwargs)

  /** One `trigger(point, **args)` issued by a caller of the registry. */
  datatype Firing = Firing(point: HookPoint, args: Kwargs)

  /** The registry has a list for every hook point. */
  ghost predicate Complete(reg: Registry)
  {
    forall p: HookPoint :: p in reg
  }

  /** Callback `cb` never raises, whatever it is called with. */
  ghost predicate Quiet(cb: CallbackId, raises: Behaviour)
  {
    forall a :: raises(cb, a).None?
  }

  /** None of `cbs` ever raises. */
  ghost predicate QuietOn(cbs: seq<CallbackId>, raises: Behaviour)
  {
    forall i :: 0 <= i < |cbs| ==> Quiet(cbs[i], raises)
  }

  /** The keyword arguments of the ERROR re-dispatch for callback `cb` raising `e`. */
  function ErrorArgs(e: Exception, cb: CallbackId): Kwargs
  {
    map["exception" := ExceptionArg(e), "hook" := HookArg(cb)]
  }

  /** Every callback of `cbs` called once, in order, with `args`. */
  function Notify(p: HookPoint, cbs: seq<CallbackId>, args: Kwargs): seq<Call>
  {
    if cbs == [] then [] else [Call(p, cbs[0], args)] + Notify(p, cbs[1..], args)
  }

  /**
   * The calls made for one callback `cb` at `p`: the call itself, then the ERROR
   * callbacks if it raised. The re-dispatch is one level deep, which matches
   * `trigger` only while the ERROR callbacks do not raise: there `trigger(ERROR)`
   * recurses again with no bound. Every member that relies on it for the code's
   * behaviour therefore requires `QuietOn(onError, raises)`.
   */
  function Handle(p: HookPoint, cb: CallbackId, args: Kwargs, onError: seq<CallbackId>, raises: Behaviour): seq<Call>
  {
    [Call(p, cb, args)] +
    match raises(cb, args)
    case None => []
    case Some(e) => Notify(Error, onError, ErrorArgs(e, cb))
  }

  /** The calls made while running the callback list `cbs` at `p`. */
  function RunHooks(p: HookPoint, cbs: seq<CallbackId>, args: Kwargs, onError: seq<CallbackId>, raises: Behaviour): seq<Call>
  {
    if cbs == [] then []
    else Handle(p, cbs[0], args, onError, raises) + RunHooks(p, cbs[1..], args, onError, raises)
  }

  /** The calls made by `trigger(p, **args)` on registry `reg`. */
  function TriggerCalls(reg: Registry, p: HookPoint, args: Kwargs, raises: Behaviour): seq<Call>
    requires Complete(reg)
  {
    RunHooks(p, reg[p], args, reg[Error], raises)
  }

  /** The calls made by a sequence of triggers, one after another. */
  function Fired(reg: Registry, firings: seq<Firing>, raises: Behaviour): seq<Call>
    requires Complete(reg)
  {
    if firings == [] then []
    else TriggerCalls(reg, firings[0].point, firings[0].args, raises) + Fired(reg, firings[1..], raises)
  }

  /** Only the calls made at point `p`, in order. */
  function CallsAt(calls: seq<Call>, p: HookPoint): seq<Call>
  {
    if calls == [] then []
    else (if calls[0].point == p then [calls[0]] else []) + CallsAt(calls[1..], p)
  }

  class Hooks {
    var hooks: Registry
    /** Every callback call made so far. */
    ghost var trace: seq<Call>

    ghost predicate Valid()
      reads this
    {
      Complete(hooks)
    }

    /** `Hooks()`: an empty list for every hook point. */
    constructor ()
      ensures Valid()
      ensures forall p: HookPoint :: hooks[p] == []
      ensures trace == []
    {
      hooks := map[PreExecute := [], PostExecute := [], SkillStart := [], SkillEnd := [], Error := [], LlmRequest := []];
      trace := [];
      new;
      forall q: HookPoint ensures q in hooks && hooks[q] == [] {
        match q
        case PreExecute =>
        case PostExecute =>
        case SkillStart =>
        case SkillEnd =>
        case Error =>
        case LlmRequest =>
      }
    }

    /** `on(point, callback)`: append, without deduplication. */
    method On(p: HookPoint, cb: CallbackId)
      requires Valid()
      modifies this`hooks
      ensures Valid()
      ensures hooks[p] == old(hooks[p]) + [cb]
      ensures forall q :: q != p ==> hooks[q] == old(hooks[q])
      ensures trace == old(trace)
    {
      hooks := hooks[p := hooks[p] + [cb]];
    }

    /**
     * `trigger(point, **args)`: every callback of `p` in registration order; a raising
     * callback is reported by `trigger(ERROR, exception=e, hook=cb)` before the next one
     * runs, and never propagates. ERROR callbacks must not raise: the source has no
     * guard, and a raising ERROR callback would re-enter `trigger` without bound.
     */
    method Trigger(p: HookPoint, args: Kwargs, raises: Behaviour)
      requires Valid() && QuietOn(hooks[Error], raises)
      modifies this`trace
      ensures hooks == old(hooks)
      ensures trace == old(trace) + TriggerCalls(hooks, p, args, raises)
      decreases if p == Error then 0 else 1
    {
      var cbs := hooks[p];
      for i := 0 to |cbs|
        invariant trace == old(trace) + RunHooks(p, cbs[..i], args, hooks[Error], raises)
      {
        var cb := cbs[i];
        ghost var before := trace;
        trace := trace + [Call(p, cb, args)];
        var outcome := raises(cb, args);
        if outcome.Some? {
          // an ERROR callback never raises, so this re-dispatch is one level deep
          assert p != Error;
          Trigger(Error, ErrorArgs(outcome.value, cb), raises);
          TriggerQuiet(hooks, Error, ErrorArgs(outcome.value, cb), raises);
        }
        TraceStep(old(trace), before, trace, p, cbs, i, args, hooks[Error], raises);
      }
      assert cbs[..|cbs|] == cbs;
    }
  }

  /** The trace after running callback i of the list, given the trace before it. */
  lemma TraceStep(start: seq<Call>, before: seq<Call>, after: seq<Call>, p: HookPoint, cbs: seq<CallbackId>, i: nat,
                  args: Kwargs, onError: seq<CallbackId>, raises: Behaviour)
    requires i < |cbs|
    requires before == start + RunHooks(p, cbs[..i], args, onError, raises)
    requires after == before + [Call(p, cbs[i], args)] +
      match raises(cbs[i], args)
      case None => []
      case Some(e) => Notify(Error, onError, ErrorArgs(e, cbs[i]))
    ensures after == start + RunHooks(p, cbs[..i + 1], args, onError, raises)
  {
    RunHooksStep(p, cbs, i, args, onError, raises);
  }

  /** Running one more callback of the list appends the calls made for it. */
  lemma RunHooksStep(p: HookPoint, cbs: seq<CallbackId>, i: nat, args: Kwargs, onError: seq<CallbackId>, raises: Behaviour)
    requires i < |cbs|
    ensures RunHooks(p, cbs[..i + 1], args, onError, raises)
            == RunHooks(p, cbs[..i], args, onError, raises) + Handle(p, cbs[i], args, onError, raises)
  {
    assert cbs[..i + 1] == cbs[..i] + [cbs[i]];
    RunHooksSplit(p, cbs[..i], [cbs[i]], args, onError, raises);
    assert [cbs[i]][1..] == [];
  }

  /** Running a list in two parts makes the calls of the first part, then those of the second. */
  lemma {:induction false} RunHooksSplit(p: HookPoint, a: seq<CallbackId>, b: seq<CallbackId>, args: Kwargs, onError: seq<CallbackId>, raises: Behaviour)
    ensures RunHooks(p, a + b, args, onError, raises) == RunHooks(p, a, args, onError, raises) + RunHooks(p, b, args, onError, raises)
    decreases |a|
  {
    if a == [] {
      assert a + b == b;
    } else {
      assert (a + b)[1..] == a[1..] + b;
      RunHooksSplit(p, a[1..], b, args, onError, raises);
    }
  }

  /** `Notify` calls callback i as its i-th call. */
  lemma {:induction false} NotifyAt(p: HookPoint, cbs: seq<CallbackId>, args: Kwargs)
    ensures |Notify(p, cbs, args)| == |cbs|
    ensures forall i :: 0 <= i < |cbs| ==> Notify(p, cbs, args)[i] == Call(p, cbs[i], args)
    decreases |cbs|
  {
    if cbs != [] {
      NotifyAt(p, cbs[1..], args);
    }
  }

  /** When no callback of the list raises, each is called exactly once, in order, with the same arguments. */
  lemma {:induction false} RunHooksQuiet(p: HookPoint, cbs: seq<CallbackId>, args: Kwargs, onError: seq<CallbackId>, raises: Behaviour)
    requires forall i :: 0 <= i < |cbs| ==> raises(cbs[i], args).None?
    ensures RunHooks(p, cbs, args, onError, raises) == Notify(p, cbs, args)
    decreases |cbs|
  {
    if cbs != [] {
      RunHooksQuiet(p, cbs[1..], args, onError, raises);
    }
  }

  /** `trigger` with no raising callback: one call per registered callback, in registration order. */
  lemma TriggerQuiet(reg: Registry, p: HookPoint, args: Kwargs, raises: Behaviour)
    requires Complete(reg)
    requires forall i :: 0 <= i < |reg[p]| ==> raises(reg[p][i], args).None?
    ensures TriggerCalls(reg, p, args, raises) == Notify(p, reg[p], args)
  {
    RunHooksQuiet(p, reg[p], args, reg[Error], raises);
  }

  /**
   * When the i-th callback at `p` raises `e`, the ERROR callbacks run with
   * `exception=e, hook=cb` right after it and before the next callback at `p`,
   * and the callbacks after it still run.
   */
  lemma TriggerRaise(reg: Registry, p: HookPoint, args: Kwargs, raises: Behaviour, i: nat, e: Exception)
    requires Complete(reg) && QuietOn(reg[Error], raises) && i < |reg[p]|
    requires raises(reg[p][i], args) == Some(e)
    ensures TriggerCalls(reg, p, args, raises) ==
      RunHooks(p, reg[p][..i], args, reg[Error], raises)
      + [Call(p, reg[p][i], args)]
      + Notify(Error, reg[Error], ErrorArgs(e, reg[p][i]))
      + RunHooks(p, reg[p][i + 1..], args, reg[Error], raises)
  {
    var cbs := reg[p];
    assert cbs == cbs[..i] + ([cbs[i]] + cbs[i + 1..]);
    RunHooksSplit(p, cbs[..i], [cbs[i]] + cbs[i + 1..], args, reg[Error], raises);
    assert ([cbs[i]] + cbs[i + 1..])[1..] == cbs[i + 1..];
  }

  /** The calls a list makes at a point other than ERROR are exactly one per callback, raising or not. */
  lemma {:induction false} RunHooksAt(p: HookPoint, cbs: seq<CallbackId>, args: Kwargs, onError: seq<CallbackId>, raises: Behaviour)
    requires p != Error && QuietOn(onError, raises)
    ensures CallsAt(RunHooks(p, cbs, args, onError, raises), p) == Notify(p, cbs, args)
    decreases |cbs|
  {
    if cbs != [] {
      var h := Handle(p, cbs[0], args, onError, raises);
      RunHooksAt(p, cbs[1..], args, onError, raises);
      CallsAtSplit(h, RunHooks(p, cbs[1..], args, onError, raises), p);
      CallsAtSplit([Call(p, cbs[0], args)], h[1..], p);
      assert h == [Call(p, cbs[0], args)] + h[1..];
      match raises(cbs[0], args)
      case None =>
        assert h[1..] == [];
      case Some(e) =>
        NotifyElsewhere(Error, onError, ErrorArgs(e, cbs[0]), p);
    }
  }

  /** Filtering a concatenation filters each part. */
  lemma {:induction false} CallsAtSplit(a: seq<Call>, b: seq<Call>, p: HookPoint)
    ensures CallsAt(a + b, p) == CallsAt(a, p) + CallsAt(b, p)
    decreases |a|
  {
    if a == [] {
      assert a + b == b;
    } else {
      assert (a + b)[1..] == a[1..] + b;
      CallsAtSplit(a[1..], b, p);
    }
  }

  /** Calls at one point contribute nothing to the calls at another. */
  lemma {:induction false} NotifyElsewhere(q: HookPoint, cbs: seq<CallbackId>, args: Kwargs, p: HookPoint)
    requires q != p
    ensures CallsAt(Notify(q, cbs, args), p) == []
    decreases |cbs|
  {
    if cbs != [] {
      NotifyElsewhere(q, cbs[1..], args, p);
    }
  }

  lemma {:induction false} NotifyAtItself(p: HookPoint, cbs: seq<CallbackId>, args: Kwargs)
    ensures CallsAt(Notify(p, cbs, args), p) == Notify(p, cbs, args)
    decreases |cbs|
  {
    if cbs != [] {
      NotifyAtItself(p, cbs[1..], args);
    }
  }

  /**
   * A raising callback does not stop the others: the calls `trigger(p)` makes at
   * `p` itself are one per registered callback, in registration order, with the
   * same arguments.
   */
  lemma TriggerCallsEveryCallback(reg: Registry, p: HookPoint, args: Kwargs, raises: Behaviour)
    requires Complete(reg) && QuietOn(reg[Error], raises)
    ensures CallsAt(TriggerCalls(reg, p, args, raises), p) == Notify(p, reg[p], args)
  {
    if p == Error {
      TriggerQuiet(reg, p, args, raises);
      NotifyAtItself(p, reg[p], args);
    } else {
      RunHooksAt(p, reg[p], args, reg[Error], raises);
    }
  }

  /** `on` does not deduplicate: a callback registered twice more is called twice more. */
  lemma RegisteredTwiceCalledTwice(reg: Registry, p: HookPoint, cb: CallbackId, args: Kwargs, raises: Behaviour)
    requires Complete(reg)
    requires forall i :: 0 <= i < |reg[p]| ==> raises(reg[p][i], args).None?
    requires raises(cb, args).None?
    ensures TriggerCalls(reg[p := reg[p] + [cb] + [cb]], p, args, raises)
            == TriggerCalls(reg, p, args, raises) + [Call(p, cb, args), Call(p, cb, args)]
  {
    var reg' := reg[p := reg[p] + [cb] + [cb]];
    assert reg'[p] == reg[p] + [cb, cb];
    assert forall i :: 0 <= i < |reg'[p]| ==> reg'[p][i] == (if i < |reg[p]| then reg[p][i] else cb);
    TriggerQuiet(reg', p, args, raises);
    TriggerQuiet(reg, p, args, raises);
    NotifySplit(p, reg[p], [cb, cb], args);
    assert [cb, cb][1..] == [cb] && [cb][1..] == [];
    assert Notify(p, [cb], args) == [Call(p, cb, args)];
    assert Notify(p, [cb, cb], args) == [Call(p, cb, args)] + Notify(p, [cb], args);
  }

  /** Notifying a list in two parts notifies the first part, then the second. */
  lemma {:induction false} NotifySplit(p: HookPoint, a: seq<CallbackId>, b: seq<CallbackId>, args: Kwargs)
    ensures Notify(p, a + b, args) == Notify(p, a, args) + Notify(p, b, args)
    decreases |a|
  {
    if a == [] {
      assert a + b == b;
    } else {
      assert (a + b)[1..] == a[1..] + b;
      NotifySplit(p, a[1..], b, args);
    }
  }

  /** Triggers issued one after another make their calls one after another. */
  lemma {:induction false} FiredSplit(reg: Registry, a: seq<Firing>, b: seq<Firing>, raises: Behaviour)
    requires Complete(reg)
    ensures Fired(reg, a + b, raises) == Fired(reg, a, raises) + Fired(reg, b, raises)
    decreases |a|
  {
    if a == [] {
      assert a + b == b;
    } else {
      assert (a + b)[1..] == a[1..] + b;
      FiredSplit(reg, a[1..], b, raises);
    }
  }

  /** A single trigger makes the calls `TriggerCalls` describes. */
  lemma FiredOne(reg: Registry, f: Firing, raises: Behaviour)
    requires Complete(reg)
    ensures Fired(reg, [f], raises) == TriggerCalls(reg, f.point, f.args, raises)
  {
    assert [f][1..] == [];
  }

  /** A trace that has grown by the calls of `done` and then by those of `more` has grown by those of `done + more`. */
  lemma TraceExtend(t0: seq<Call>, t1: seq<Call>, t2: seq<Call>, reg: Registry, done: seq<Firing>, more: seq<Firing>, raises: Behaviour)
    requires Complete(reg)
    requires t1 == t0 + Fired(reg, done, raises) && t2 == t1 + Fired(reg, more, raises)
    ensures t2 == t0 + Fired(reg, done + more, raises)
  {
    FiredSplit(reg, done, more, raises);
  }

}
