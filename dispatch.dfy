/**
 * What `Agent.execute` computes (waspnest/core/agent.py): the resulting state,
 * the number of steps taken and the hook triggers issued, as functions of the
 * skills, the initial state, `max_steps`, the caller's context and the clock.
 *
 * One step scans the skills in order. A skill that cannot handle the current
 * state is skipped. A skill that can is stamped, announced (SKILL_START) and
 * executed: a returned state ends the step (SKILL_END); `None` moves on to the
 * next skill; an exception is stamped into the context, reported (ERROR) and
 * the scan moves on too. A step in which no skill returns a state ends the run,
 * as does reaching `max_steps`.
 */
module Dispatch {

  import opened Wrappers
  import opened StateModel
  import opened Hooks
  import opened Skills

  // Context keys the agent writes.
  const StartedAtKey := "execution_started_at"
  const MaxStepsKey := "max_steps"
  const CurrentStepKey := "current_step"
  const CurrentSkillKey := "current_skill"
  const SkillStartedAtKey := "skill_started_at"
  const LastSkillKey := "last_skill"
  const LastStepKey := "last_step"
  const SkillCompletedAtKey := "skill_completed_at"
  const ErrorKey := "error"
  const ErrorSkillKey := "error_skill"
  const ErrorStepKey := "error_step"
  const CompletedAtKey := "execution_completed_at"
  const TotalStepsKey := "total_steps"

  const Bookkeeping: set<string> := {
    StartedAtKey, MaxStepsKey, CurrentStepKey, CurrentSkillKey, SkillStartedAtKey, LastSkillKey,
    LastStepKey, SkillCompletedAtKey, ErrorKey, ErrorSkillKey, ErrorStepKey, CompletedAtKey, TotalStepsKey
  }

  function RunStamps(maxSteps: int, now: Value): Dict
  {
    map[StartedAtKey := now, MaxStepsKey := Number(maxSteps)]
  }

  function StartStamps(name: string, step: nat, now: Value): Dict
  {
    map[CurrentStepKey := Number(step), CurrentSkillKey := Text(name), SkillStartedAtKey := now]
  }

  function EndStamps(name: string, step: nat, now: Value): Dict
  {
    map[LastSkillKey := Text(name), LastStepKey := Number(step), SkillCompletedAtKey := now]
  }

  /** `error=str(e), error_skill=skill.name, error_step=steps`. */
  function ErrorStamps(e: Exception, name: string, step: nat): Dict
  {
    map[ErrorKey := Text(e.message), ErrorSkillKey := Text(name), ErrorStepKey := Number(step)]
  }

  function DoneStamps(steps: nat, now: Value): Dict
  {
    map[CompletedAtKey := now, TotalStepsKey := Number(steps)]
  }

  function StateKwargs(s: State): Kwargs
  {
    map["state" := StateArg(s)]
  }

  function SkillKwargs(sp: SkillSpec, s: State): Kwargs
  {
    map["skill" := SkillArg(sp.name), "state" := StateArg(s)]
  }

  function ErrorKwargs(e: Exception, sp: SkillSpec, s: State): Kwargs
  {
    map["exception" := ExceptionArg(e), "skill" := SkillArg(sp.name), "state" := StateArg(s)]
  }

  /** The effect of offering one skill the current state. */
  datatype Offered = Offered(state: State, produced: bool, firings: seq<Firing>)

  function Offer(sp: SkillSpec, cur: State, step: nat, now: Value): Offered
  {
    if !CanHandle(sp, cur) then Offered(cur, false, [])
    else
      var started := WithContext(cur, StartStamps(sp.name, step, now));
      var announce := Firing(SkillStart, SkillKwargs(sp, started));
      match Execute(sp, started)
      case Produced(next) =>
        var done := WithContext(next, EndStamps(sp.name, step, now));
        Offered(done, true, [announce, Firing(SkillEnd, SkillKwargs(sp, done))])
      case NoResult =>
        Offered(started, false, [announce])
      case Raised(e) =>
        var failed := WithContext(started, ErrorStamps(e, sp.name, step));
        Offered(failed, false, [announce, Firing(Error, ErrorKwargs(e, sp, failed))])
  }

  /** The effect of one step from skill `i` on: the state, the index of the skill that ran, the triggers. */
  datatype Scan = Scan(state: State, chosen: Option<nat>, firings: seq<Firing>)

  function ScanFrom(skills: seq<SkillSpec>, i: nat, cur: State, step: nat, now: Value): (r: Scan)
    ensures r.chosen.Some? ==> i <= r.chosen.value < |skills|
    decreases |skills| - i
  {
    if i >= |skills| then Scan(cur, None, [])
    else
      var o := Offer(skills[i], cur, step, now);
      if o.produced then Scan(o.state, Some(i), o.firings)
      else
        var rest := ScanFrom(skills, i + 1, o.state, step, now);
        Scan(rest.state, rest.chosen, o.firings + rest.firings)
  }

  /** The state, the step counter and the triggers issued so far. */
  datatype Progress = Progress(state: State, steps: nat, firings: seq<Firing>)

  /** The `while steps < max_steps` loop from step `steps` on. */
  function Loop(skills: seq<SkillSpec>, cur: State, steps: nat, maxSteps: int, now: Value): Progress
    decreases maxSteps - steps
  {
    if steps >= maxSteps then Progress(cur, steps, [])
    else
      var sc := ScanFrom(skills, 0, cur, steps, now);
      if sc.chosen.None? then Progress(sc.state, steps, sc.firings)
      else
        var rest := Loop(skills, sc.state, steps + 1, maxSteps, now);
        Progress(rest.state, rest.steps, sc.firings + rest.firings)
  }

  /** The state the loop's last scan starts from, when the loop stops short of `max_steps`. */
  function LastStart(skills: seq<SkillSpec>, cur: State, steps: nat, maxSteps: int, now: Value): State
    decreases maxSteps - steps
  {
    if steps >= maxSteps then cur
    else
      var sc := ScanFrom(skills, 0, cur, steps, now);
      if sc.chosen.None? then cur else LastStart(skills, sc.state, steps + 1, maxSteps, now)
  }

  /**
   * The caller's context merged in only when it is non-empty; the guard makes no
   * difference, since merging nothing leaves the state as it is.
   */
  function Merge(initial: State, extra: Dict): (r: State)
    ensures r == WithContext(initial, extra)
  {
    WithContextEmpty(initial);
    if extra != map[] then WithContext(initial, extra) else initial
  }

  /** `Agent.execute(initial_state, max_steps, context)`; `extra` is `context`, empty for `None`. */
  function Run(skills: seq<SkillSpec>, initial: State, maxSteps: int, extra: Dict, now: Value): Progress
  {
    var merged := Merge(initial, extra);
    var started := WithContext(merged, RunStamps(maxSteps, now));
    var l := Loop(skills, started, 0, maxSteps, now);
    var final := WithContext(l.state, DoneStamps(l.steps, now));
    Progress(final, l.steps, [Firing(PreExecute, StateKwargs(initial))] + l.firings + [Firing(PostExecute, StateKwargs(final))])
  }

  /** How many of `firings` are at point `p`. */
  function CountAt(firings: seq<Firing>, p: HookPoint): nat
  {
    if firings == [] then 0
    else (if firings[0].point == p then 1 else 0) + CountAt(firings[1..], p)
  }

  /** Every key of `a` is still in `b`, and every key the agent does not write keeps its value. */
  ghost predicate Keeps(a: Dict, b: Dict)
  {
    forall k :: k in a ==> k in b && (k !in Bookkeeping ==> b[k] == a[k])
  }

  /** `b` extends `a`: every key of `a` is in `b` with the same value. */
  ghost predicate Grows(a: Dict, b: Dict)
  {
    forall k :: k in a ==> k in b && b[k] == a[k]
  }

  /** A skill whose returned context extends the context it was given (it may add keys), as the tests' skills do. */
  ghost predicate PassesContext(sp: SkillSpec)
  {
    forall s :: Execute(sp, s).Produced? ==> Grows(s.context, Execute(sp, s).state.context)
  }

  /** A skill that returns the metadata it was given, as the tests' skills do. */
  ghost predicate KeepsMetadata(sp: SkillSpec)
  {
    forall s :: Execute(sp, s).Produced? ==> Execute(sp, s).state.metadata == s.metadata
  }

  ghost predicate AllPassContext(skills: seq<SkillSpec>)
  {
    forall m :: 0 <= m < |skills| ==> PassesContext(skills[m])
  }

  ghost predicate AllKeepMetadata(skills: seq<SkillSpec>)
  {
    forall m :: 0 <= m < |skills| ==> KeepsMetadata(skills[m])
  }

  /** The state skill `k` is offered in a step that started at skill `i` with `cur`, if none before it returned a state. */
  function Before(skills: seq<SkillSpec>, i: nat, k: nat, cur: State, step: nat, now: Value): State
    requires i <= k <= |skills|
    decreases k - i
  {
    if i == k then cur else Before(skills, i + 1, k, Offer(skills[i], cur, step, now).state, step, now)
  }

  lemma {:induction false} CountAtSplit(a: seq<Firing>, b: seq<Firing>, p: HookPoint)
    ensures CountAt(a + b, p) == CountAt(a, p) + CountAt(b, p)
    decreases |a|
  {
    if a == [] {
      assert a + b == b;
    } else {
      assert (a + b)[1..] == a[1..] + b;
      CountAtSplit(a[1..], b, p);
    }
  }

  /** Stamping bookkeeping keys keeps everything else. */
  lemma StampKeeps(s: State, u: Dict)
    requires u.Keys <= Bookkeeping
    ensures Keeps(s.context, WithContext(s, u).context)
  {
  }

  lemma KeepsTransitive(a: Dict, b: Dict, c: Dict)
    requires Keeps(a, b) && Keeps(b, c)
    ensures Keeps(a, c)
  {
  }

  /** The triggers of one or two firings, counted by point. */
  lemma CountShort(x: Firing, y: Firing, p: HookPoint)
    ensures CountAt([x], p) == (if x.point == p then 1 else 0)
    ensures CountAt([x, y], p) == CountAt([x], p) + (if y.point == p then 1 else 0)
  {
    assert [x][1..] == [];
    assert [x, y][1..] == [y];
    assert [y][1..] == [];
  }

  /**
   * Offering a skill: one that cannot handle the state is skipped without a trace;
   * one that does not return a state leaves the payload and the metadata alone; and
   * the SKILL_END trigger is issued exactly when a state is returned.
   */
  lemma OfferEffect(sp: SkillSpec, cur: State, step: nat, now: Value)
    ensures !CanHandle(sp, cur) ==> Offer(sp, cur, step, now) == Offered(cur, false, [])
    ensures var o := Offer(sp, cur, step, now);
      && (!o.produced ==> o.state.data == cur.data && o.state.metadata == cur.metadata && Keeps(cur.context, o.state.context))
      && CountAt(o.firings, SkillEnd) == (if o.produced then 1 else 0)
      && CountAt(o.firings, PreExecute) == 0 && CountAt(o.firings, PostExecute) == 0
  {
    if CanHandle(sp, cur) {
      var started := WithContext(cur, StartStamps(sp.name, step, now));
      var announce := Firing(SkillStart, SkillKwargs(sp, started));
      StampKeeps(cur, StartStamps(sp.name, step, now));
      match Execute(sp, started)
      case Produced(next) =>
        var done := WithContext(next, EndStamps(sp.name, step, now));
        var closing := Firing(SkillEnd, SkillKwargs(sp, done));
        CountShort(announce, closing, SkillEnd);
        CountShort(announce, closing, PreExecute);
        CountShort(announce, closing, PostExecute);
      case NoResult =>
        CountShort(announce, announce, SkillEnd);
        CountShort(announce, announce, PreExecute);
        CountShort(announce, announce, PostExecute);
      case Raised(e) =>
        var failed := WithContext(started, ErrorStamps(e, sp.name, step));
        var report := Firing(Error, ErrorKwargs(e, sp, failed));
        StampKeeps(started, ErrorStamps(e, sp.name, step));
        KeepsTransitive(cur.context, started.context, failed.context);
        CountShort(announce, report, SkillEnd);
        CountShort(announce, report, PreExecute);
        CountShort(announce, report, PostExecute);
    }
  }

  /**
   * A skill that raises does not end the step: the context records `error=str(e)`,
   * `error_skill` and `error_step`, the payload is unchanged, ERROR is triggered with
   * the exception, the skill and the stamped state, and the scan goes on.
   */
  lemma OfferRaised(sp: SkillSpec, cur: State, step: nat, now: Value, e: Exception)
    requires CanHandle(sp, cur)
    requires Execute(sp, WithContext(cur, StartStamps(sp.name, step, now))) == Raised(e)
    ensures var o := Offer(sp, cur, step, now);
      && !o.produced
      && o.state.data == cur.data
      && o.state.context[ErrorKey] == Text(e.message)
      && o.state.context[ErrorSkillKey] == Text(sp.name)
      && o.state.context[ErrorStepKey] == Number(step)
      && o.firings[|o.firings| - 1] == Firing(Error, ErrorKwargs(e, sp, o.state))
  {
  }

  /**
   * A skill whose returned context extends its input keeps every context key across
   * an offer, whatever it does; one that also returns its input metadata keeps that.
   */
  lemma OfferThreads(sp: SkillSpec, cur: State, step: nat, now: Value)
    requires PassesContext(sp)
    ensures var o := Offer(sp, cur, step, now);
      Keeps(cur.context, o.state.context) && (KeepsMetadata(sp) ==> o.state.metadata == cur.metadata)
  {
    OfferEffect(sp, cur, step, now);
    if CanHandle(sp, cur) {
      var started := WithContext(cur, StartStamps(sp.name, step, now));
      StampKeeps(cur, StartStamps(sp.name, step, now));
      match Execute(sp, started)
      case Produced(next) =>
        var done := WithContext(next, EndStamps(sp.name, step, now));
        StampKeeps(next, EndStamps(sp.name, step, now));
        assert Keeps(started.context, next.context);
        KeepsTransitive(cur.context, started.context, next.context);
        KeepsTransitive(cur.context, next.context, done.context);
      case NoResult =>
      case Raised(_) =>
    }
  }

  /**
   * The skill that runs in a step is the first, in list order, that can handle the
   * state it is offered and returns a state; the skills before it were skipped,
   * returned `None` or raised.
   */
  lemma {:induction false} ScanChoosesFirst(skills: seq<SkillSpec>, i: nat, cur: State, step: nat, now: Value, j: nat)
    requires i <= |skills|
    ensures ScanFrom(skills, i, cur, step, now).chosen == Some(j) <==>
      && i <= j < |skills|
      && Offer(skills[j], Before(skills, i, j, cur, step, now), step, now).produced
      && forall k :: i <= k < j ==> !Offer(skills[k], Before(skills, i, k, cur, step, now), step, now).produced
    decreases |skills| - i
  {
    if i < |skills| {
      var o := Offer(skills[i], cur, step, now);
      if !o.produced {
        ScanChoosesFirst(skills, i + 1, o.state, step, now, j);
        forall k | i + 1 <= k <= |skills|
          ensures Before(skills, i, k, cur, step, now) == Before(skills, i + 1, k, o.state, step, now)
        {
        }
      }
    }
  }

  /**
   * The skill chosen in a step can handle the payload the step started with: the
   * skills passed over before it do not change the payload.
   */
  lemma {:induction false} ChosenCanHandle(skills: seq<SkillSpec>, i: nat, cur: State, step: nat, now: Value)
    ensures var sc := ScanFrom(skills, i, cur, step, now);
      sc.chosen.Some? ==> sc.chosen.value < |skills| && CanHandle(skills[sc.chosen.value], cur)
    decreases |skills| - i
  {
    if i < |skills| {
      var o := Offer(skills[i], cur, step, now);
      OfferEffect(skills[i], cur, step, now);
      if !o.produced {
        ChosenCanHandle(skills, i + 1, o.state, step, now);
      }
    }
  }

  /**
   * A step runs at most one skill: SKILL_END is triggered once if a skill returned
   * a state and not at all otherwise, and a step where none did leaves the payload
   * and the metadata as they were.
   */
  lemma {:induction false} ScanEffect(skills: seq<SkillSpec>, i: nat, cur: State, step: nat, now: Value)
    ensures var sc := ScanFrom(skills, i, cur, step, now);
      && CountAt(sc.firings, SkillEnd) == (if sc.chosen.Some? then 1 else 0)
      && CountAt(sc.firings, PreExecute) == 0 && CountAt(sc.firings, PostExecute) == 0
      && (sc.chosen.None? ==> sc.state.data == cur.data && sc.state.metadata == cur.metadata)
    decreases |skills| - i
  {
    if i < |skills| {
      var o := Offer(skills[i], cur, step, now);
      OfferEffect(skills[i], cur, step, now);
      if !o.produced {
        var rest := ScanFrom(skills, i + 1, o.state, step, now);
        ScanEffect(skills, i + 1, o.state, step, now);
        CountAtSplit(o.firings, rest.firings, SkillEnd);
        CountAtSplit(o.firings, rest.firings, PreExecute);
        CountAtSplit(o.firings, rest.firings, PostExecute);
      }
    }
  }

  /** With such skills a step keeps every context key, and the metadata when they keep it too. */
  lemma {:induction false} ScanThreads(skills: seq<SkillSpec>, i: nat, cur: State, step: nat, now: Value)
    requires AllPassContext(skills)
    ensures var sc := ScanFrom(skills, i, cur, step, now);
      Keeps(cur.context, sc.state.context) && (AllKeepMetadata(skills) ==> sc.state.metadata == cur.metadata)
    decreases |skills| - i
  {
    if i < |skills| {
      var o := Offer(skills[i], cur, step, now);
      OfferThreads(skills[i], cur, step, now);
      if !o.produced {
        ScanThreads(skills, i + 1, o.state, step, now);
        KeepsTransitive(cur.context, o.state.context, ScanFrom(skills, i + 1, o.state, step, now).state.context);
      }
    }
  }

  /** The loop never goes past `max_steps`, and does not move when it is already there. */
  lemma {:induction false} LoopBounds(skills: seq<SkillSpec>, cur: State, steps: nat, maxSteps: int, now: Value)
    ensures var l := Loop(skills, cur, steps, maxSteps, now);
      && steps <= l.steps
      && (steps <= maxSteps ==> l.steps <= maxSteps)
      && (steps >= maxSteps ==> l.steps == steps)
    decreases maxSteps - steps
  {
    if steps < maxSteps {
      var sc := ScanFrom(skills, 0, cur, steps, now);
      if sc.chosen.Some? {
        LoopBounds(skills, sc.state, steps + 1, maxSteps, now);
      }
    }
  }

  /**
   * The loop counts exactly the steps in which a skill returned a state, and
   * triggers neither PRE_EXECUTE nor POST_EXECUTE.
   */
  lemma {:induction false} LoopCounts(skills: seq<SkillSpec>, cur: State, steps: nat, maxSteps: int, now: Value)
    ensures var l := Loop(skills, cur, steps, maxSteps, now);
      && l.steps - steps == CountAt(l.firings, SkillEnd)
      && CountAt(l.firings, PreExecute) == 0 && CountAt(l.firings, PostExecute) == 0
    decreases maxSteps - steps
  {
    if steps < maxSteps {
      var sc := ScanFrom(skills, 0, cur, steps, now);
      ScanEffect(skills, 0, cur, steps, now);
      if sc.chosen.Some? {
        var rest := Loop(skills, sc.state, steps + 1, maxSteps, now);
        LoopCounts(skills, sc.state, steps + 1, maxSteps, now);
        CountAtSplit(sc.firings, rest.firings, SkillEnd);
        CountAtSplit(sc.firings, rest.firings, PreExecute);
        CountAtSplit(sc.firings, rest.firings, PostExecute);
      }
    }
  }

  /** With such skills the loop keeps every context key, and the metadata when they keep it too. */
  lemma {:induction false} LoopThreads(skills: seq<SkillSpec>, cur: State, steps: nat, maxSteps: int, now: Value)
    requires AllPassContext(skills)
    ensures var l := Loop(skills, cur, steps, maxSteps, now);
      Keeps(cur.context, l.state.context) && (AllKeepMetadata(skills) ==> l.state.metadata == cur.metadata)
    decreases maxSteps - steps
  {
    if steps < maxSteps {
      var sc := ScanFrom(skills, 0, cur, steps, now);
      ScanThreads(skills, 0, cur, steps, now);
      if sc.chosen.Some? {
        LoopThreads(skills, sc.state, steps + 1, maxSteps, now);
        KeepsTransitive(cur.context, sc.state.context, Loop(skills, sc.state, steps + 1, maxSteps, now).state.context);
      }
    }
  }

  /**
   * The loop ends short of `max_steps` only through `if not executed: break`: the
   * scan of its last step, from the state `LastStart` reaches, ran no skill and
   * left the loop's final state.
   */
  lemma {:induction false} LoopEndsIdle(skills: seq<SkillSpec>, cur: State, steps: nat, maxSteps: int, now: Value)
    ensures var l := Loop(skills, cur, steps, maxSteps, now);
      var last := ScanFrom(skills, 0, LastStart(skills, cur, steps, maxSteps, now), l.steps, now);
      l.steps < maxSteps ==> last.chosen.None? && last.state == l.state
    decreases maxSteps - steps
  {
    if steps < maxSteps {
      var sc := ScanFrom(skills, 0, cur, steps, now);
      if sc.chosen.Some? {
        LoopEndsIdle(skills, sc.state, steps + 1, maxSteps, now);
      }
    }
  }

  /** A scan in which no skill returns a state ends the loop there, with no further step. */
  lemma LoopIdleEnds(skills: seq<SkillSpec>, cur: State, steps: nat, maxSteps: int, now: Value)
    requires steps < maxSteps && ScanFrom(skills, 0, cur, steps, now).chosen.None?
    ensures var sc := ScanFrom(skills, 0, cur, steps, now);
      Loop(skills, cur, steps, maxSteps, now) == Progress(sc.state, steps, sc.firings)
  {
  }

  /**
   * When every scan from a payload of one of the types `tags` runs a skill and
   * leaves a payload of one of those types, a loop starting on such a payload runs
   * all the way to `max_steps`.
   */
  lemma {:induction false} LoopBusyRunsToCap(skills: seq<SkillSpec>, cur: State, steps: nat, maxSteps: int, now: Value, tags: set<TypeTag>)
    requires steps <= maxSteps && cur.data.tag in tags
    requires forall s: State, k: nat :: s.data.tag in tags ==>
      ScanFrom(skills, 0, s, k, now).chosen.Some? && ScanFrom(skills, 0, s, k, now).state.data.tag in tags
    ensures Loop(skills, cur, steps, maxSteps, now).steps == maxSteps
    decreases maxSteps - steps
  {
    if steps < maxSteps {
      var sc := ScanFrom(skills, 0, cur, steps, now);
      LoopBusyRunsToCap(skills, sc.state, steps + 1, maxSteps, now, tags);
    }
  }

  /** A skill that turns every payload of type `tag` into another payload of type `tag`. */
  ghost predicate SelfLoop(sp: SkillSpec, tag: TypeTag)
  {
    && sp.inputType == tag
    && forall s: State :: s.data.tag == tag ==> Execute(sp, s).Produced? && Execute(sp, s).state.data.tag == tag
  }

  /** A lone skill that always maps its input type to itself is run at every step, up to `max_steps`. */
  lemma LoopSelfLoop(sp: SkillSpec, cur: State, maxSteps: nat, now: Value)
    requires SelfLoop(sp, cur.data.tag)
    ensures Loop([sp], cur, 0, maxSteps, now).steps == maxSteps
  {
    var tag := cur.data.tag;
    forall s: State, k: nat | s.data.tag in {tag}
      ensures ScanFrom([sp], 0, s, k, now).chosen.Some? && ScanFrom([sp], 0, s, k, now).state.data.tag in {tag}
    {
      var started := WithContext(s, StartStamps(sp.name, k, now));
      assert Execute(sp, started).Produced?;
    }
    LoopBusyRunsToCap([sp], cur, 0, maxSteps, now, {tag});
  }

  /** Such a skill exists: one that returns the state it is given. */
  lemma SelfLoopExists(tag: TypeTag)
    ensures SelfLoop(SkillSpec("Echo", tag, tag, Implemented(s => Produced(s))), tag)
  {
  }

  /**
   * `total_steps` is the number of skills that returned a state, it never exceeds
   * `max_steps` (and is 0 when `max_steps` is not positive), and the final context
   * carries it together with `execution_completed_at`.
   */
  lemma RunSteps(skills: seq<SkillSpec>, initial: State, maxSteps: int, extra: Dict, now: Value)
    ensures var r := Run(skills, initial, maxSteps, extra, now);
      && r.steps == CountAt(r.firings, SkillEnd)
      && (maxSteps >= 0 ==> r.steps <= maxSteps)
      && (maxSteps <= 0 ==> r.steps == 0)
      && r.state.context[TotalStepsKey] == Number(r.steps)
      && CompletedAtKey in r.state.context
  {
    var merged := Merge(initial, extra);
    var started := WithContext(merged, RunStamps(maxSteps, now));
    var l := Loop(skills, started, 0, maxSteps, now);
    var r := Run(skills, initial, maxSteps, extra, now);
    LoopBounds(skills, started, 0, maxSteps, now);
    LoopCounts(skills, started, 0, maxSteps, now);
    CountAtSplit([Firing(PreExecute, StateKwargs(initial))], l.firings, SkillEnd);
    CountAtSplit([Firing(PreExecute, StateKwargs(initial))] + l.firings, [Firing(PostExecute, StateKwargs(r.state))], SkillEnd);
  }

  /**
   * PRE_EXECUTE is triggered once, first, with the caller's original state (not the
   * stamped one), and POST_EXECUTE once, last, with exactly the state returned.
   */
  lemma RunBracket(skills: seq<SkillSpec>, initial: State, maxSteps: int, extra: Dict, now: Value)
    ensures var r := Run(skills, initial, maxSteps, extra, now);
      && r.firings[0] == Firing(PreExecute, StateKwargs(initial))
      && r.firings[|r.firings| - 1] == Firing(PostExecute, StateKwargs(r.state))
      && CountAt(r.firings, PreExecute) == 1
      && CountAt(r.firings, PostExecute) == 1
  {
    var merged := Merge(initial, extra);
    var started := WithContext(merged, RunStamps(maxSteps, now));
    var l := Loop(skills, started, 0, maxSteps, now);
    var r := Run(skills, initial, maxSteps, extra, now);
    var pre, post := [Firing(PreExecute, StateKwargs(initial))], [Firing(PostExecute, StateKwargs(r.state))];
    LoopCounts(skills, started, 0, maxSteps, now);
    CountAtSplit(pre, l.firings, PreExecute);
    CountAtSplit(pre + l.firings, post, PreExecute);
    CountAtSplit(pre, l.firings, PostExecute);
    CountAtSplit(pre + l.firings, post, PostExecute);
  }

  /**
   * The callback calls of a run begin with those of the PRE_EXECUTE trigger with
   * the caller's state and end with those of the POST_EXECUTE trigger with the
   * state returned.
   */
  lemma RunCalls(reg: Registry, skills: seq<SkillSpec>, initial: State, maxSteps: int, extra: Dict, now: Value, raises: Behaviour)
    requires Complete(reg) && QuietOn(reg[Error], raises)
    ensures var r := Run(skills, initial, maxSteps, extra, now);
      var calls := Fired(reg, r.firings, raises);
      var pre := TriggerCalls(reg, PreExecute, StateKwargs(initial), raises);
      var post := TriggerCalls(reg, PostExecute, StateKwargs(r.state), raises);
      && |pre| + |post| <= |calls|
      && calls[..|pre|] == pre
      && calls[|calls| - |post|..] == post
  {
    var r := Run(skills, initial, maxSteps, extra, now);
    var l := Loop(skills, WithContext(Merge(initial, extra), RunStamps(maxSteps, now)), 0, maxSteps, now);
    var first, last := Firing(PreExecute, StateKwargs(initial)), Firing(PostExecute, StateKwargs(r.state));
    assert r.firings == [first] + l.firings + [last];
    FiredSplit(reg, [first] + l.firings, [last], raises);
    FiredSplit(reg, [first], l.firings, raises);
    FiredOne(reg, first, raises);
    FiredOne(reg, last, raises);
  }

  /** With skills whose returned context extends their input, the run keeps the context it was started with. */
  lemma RunKeeps(skills: seq<SkillSpec>, initial: State, maxSteps: int, extra: Dict, now: Value)
    requires AllPassContext(skills)
    ensures var started := WithContext(WithContext(initial, extra), RunStamps(maxSteps, now));
      var r := Run(skills, initial, maxSteps, extra, now);
      Keeps(started.context, r.state.context) && (AllKeepMetadata(skills) ==> r.state.metadata == initial.metadata)
  {
    var started := WithContext(WithContext(initial, extra), RunStamps(maxSteps, now));
    var l := Loop(skills, started, 0, maxSteps, now);
    LoopThreads(skills, started, 0, maxSteps, now);
    StampKeeps(l.state, DoneStamps(l.steps, now));
    KeepsTransitive(started.context, l.state.context, Run(skills, initial, maxSteps, extra, now).state.context);
  }

  /**
   * With skills whose returned context extends their input context: the caller's
   * context and the initial state's context survive (the caller's winning), as do
   * `max_steps`, `execution_started_at`, `execution_completed_at` and
   * `total_steps`. With skills that also return their input metadata, the
   * metadata is the initial state's.
   */
  lemma RunKeepsContext(skills: seq<SkillSpec>, initial: State, maxSteps: int, extra: Dict, now: Value)
    requires AllPassContext(skills)
    ensures var r := Run(skills, initial, maxSteps, extra, now);
      && initial.context.Keys + extra.Keys + {StartedAtKey, MaxStepsKey, CompletedAtKey, TotalStepsKey} <= r.state.context.Keys
      && (forall k :: k in extra && k !in Bookkeeping ==> r.state.context[k] == extra[k])
      && (forall k :: k in initial.context && k !in extra && k !in Bookkeeping ==> r.state.context[k] == initial.context[k])
      && (AllKeepMetadata(skills) ==> r.state.metadata == initial.metadata)
  {
    RunKeeps(skills, initial, maxSteps, extra, now);
  }

  /** A skill that replaces the metadata but passes the context on: the context lemmas apply to it. */
  lemma TaggerPassesContext()
    ensures var sp := SkillSpec("Tagger", "Q", "An",
      Implemented((s: State) => Produced(State(Payload("An", 1), map["source" := Text("tagger")], s.context))));
      PassesContext(sp) && !KeepsMetadata(sp)
  {
    var sp := SkillSpec("Tagger", "Q", "An",
      Implemented((s: State) => Produced(State(Payload("An", 1), map["source" := Text("tagger")], s.context))));
    var s := State(Payload("Q", 0), map[], map[]);
    assert Execute(sp, s).state.metadata != s.metadata by {
      assert "source" in Execute(sp, s).state.metadata;
    }
  }

  /** With no skills the run takes no step and returns the initial payload. */
  lemma RunNoSkills(initial: State, maxSteps: int, extra: Dict, now: Value)
    ensures var r := Run([], initial, maxSteps, extra, now);
      r.state.data == initial.data && r.steps == 0 && CompletedAtKey in r.state.context
  {
  }

  /** A step of a lone skill that raises ends the loop with the failed offer's state. */
  lemma LoopRaising(sp: SkillSpec, cur: State, maxSteps: int, now: Value, e: Exception)
    requires CanHandle(sp, cur) && maxSteps >= 1
    requires forall s :: Execute(sp, s) == Raised(e)
    ensures var o := Offer(sp, cur, 0, now);
      var l := Loop([sp], cur, 0, maxSteps, now);
      !o.produced && l.state == o.state && l.steps == 0
  {
    var o := Offer(sp, cur, 0, now);
    assert Execute(sp, WithContext(cur, StartStamps(sp.name, 0, now))) == Raised(e);
    assert ScanFrom([sp], 1, o.state, 0, now) == Scan(o.state, None, []);
  }

  /** A single skill that always raises: the run does not fail, takes no step, and the error is recorded. */
  lemma RunRaisingSkill(sp: SkillSpec, initial: State, maxSteps: int, extra: Dict, now: Value, e: Exception)
    requires CanHandle(sp, initial) && maxSteps >= 1
    requires forall s :: Execute(sp, s) == Raised(e)
    ensures var r := Run([sp], initial, maxSteps, extra, now);
      && r.steps == 0
      && r.state.data == initial.data
      && {ErrorKey, ErrorSkillKey, ErrorStepKey} <= r.state.context.Keys
      && r.state.context[ErrorKey] == Text(e.message)
      && r.state.context[ErrorSkillKey] == Text(sp.name)
      && r.state.context[ErrorStepKey] == Number(0)
  {
    var started := WithContext(Merge(initial, extra), RunStamps(maxSteps, now));
    OfferRaised(sp, started, 0, now, e);
    LoopRaising(sp, started, maxSteps, now, e);
  }

  /** Skills `a` (Q to An) and `b` (An to F) over three distinct payload types, each always returning a state. */
  ghost predicate Chains(a: SkillSpec, b: SkillSpec)
  {
    && a.inputType != b.inputType && b.outputType != a.inputType && b.outputType != b.inputType
    && (forall s: State :: s.data.tag == a.inputType ==>
          Execute(a, s).Produced? && Execute(a, s).state.data.tag == b.inputType)
    && (forall s: State :: s.data.tag == b.inputType ==>
          Execute(b, s).Produced? && Execute(b, s).state.data.tag == b.outputType)
  }

  lemma ChainFirst(a: SkillSpec, b: SkillSpec, cur: State, step: nat, now: Value)
    requires Chains(a, b) && cur.data.tag == a.inputType
    ensures var sc := ScanFrom([a, b], 0, cur, step, now);
      sc.chosen == Some(0) && sc.state.data.tag == b.inputType
  {
    var started := WithContext(cur, StartStamps(a.name, step, now));
    assert Execute(a, started).Produced?;
  }

  lemma ChainSecond(a: SkillSpec, b: SkillSpec, cur: State, step: nat, now: Value)
    requires Chains(a, b) && cur.data.tag == b.inputType
    ensures var sc := ScanFrom([a, b], 0, cur, step, now);
      sc.chosen == Some(1) && sc.state.data.tag == b.outputType
  {
    var started := WithContext(cur, StartStamps(b.name, step, now));
    assert Execute(b, started).Produced?;
    assert Offer(a, cur, step, now) == Offered(cur, false, []);
    assert ScanFrom([a, b], 0, cur, step, now) == ScanFrom([a, b], 1, cur, step, now);
  }

  lemma ChainIdle(a: SkillSpec, b: SkillSpec, cur: State, step: nat, now: Value)
    requires Chains(a, b) && cur.data.tag == b.outputType
    ensures var sc := ScanFrom([a, b], 0, cur, step, now);
      sc == Scan(cur, None, [])
  {
    assert Offer(a, cur, step, now) == Offered(cur, false, []);
    assert Offer(b, cur, step, now) == Offered(cur, false, []);
    assert ScanFrom([a, b], 2, cur, step, now) == Scan(cur, None, []);
    assert ScanFrom([a, b], 1, cur, step, now) == Scan(cur, None, []);
  }

  lemma LoopChainIdle(a: SkillSpec, b: SkillSpec, cur: State, steps: nat, maxSteps: int, now: Value)
    requires Chains(a, b) && cur.data.tag == b.outputType
    ensures Loop([a, b], cur, steps, maxSteps, now) == Progress(cur, steps, [])
  {
    if steps < maxSteps {
      ChainIdle(a, b, cur, steps, now);
    }
  }

  lemma LoopChainSecond(a: SkillSpec, b: SkillSpec, cur: State, maxSteps: int, now: Value)
    requires Chains(a, b) && cur.data.tag == b.inputType && maxSteps >= 2
    ensures var l := Loop([a, b], cur, 1, maxSteps, now);
      l.steps == 2 && l.state.data.tag == b.outputType
  {
    ChainSecond(a, b, cur, 1, now);
    LoopChainIdle(a, b, ScanFrom([a, b], 0, cur, 1, now).state, 2, maxSteps, now);
  }

  lemma LoopChain(a: SkillSpec, b: SkillSpec, cur: State, maxSteps: int, now: Value)
    requires Chains(a, b) && cur.data.tag == a.inputType
    ensures var l := Loop([a, b], cur, 0, maxSteps, now);
      && (maxSteps >= 2 ==> l.steps == 2 && l.state.data.tag == b.outputType)
      && (maxSteps == 1 ==> l.steps == 1 && l.state.data.tag == b.inputType)
  {
    if maxSteps >= 1 {
      ChainFirst(a, b, cur, 0, now);
      var s1 := ScanFrom([a, b], 0, cur, 0, now).state;
      if maxSteps >= 2 {
        LoopChainSecond(a, b, s1, maxSteps, now);
      } else {
        assert Loop([a, b], s1, 1, maxSteps, now) == Progress(s1, 1, []);
      }
    }
  }

  /**
   * Two skills A: Q -> An and B: An -> F, registered in that order, on a Q payload:
   * with `max_steps >= 2` the run ends with an F payload after 2 steps; with
   * `max_steps == 1` it ends with an An payload after 1 step.
   */
  lemma RunChain(a: SkillSpec, b: SkillSpec, initial: State, maxSteps: int, extra: Dict, now: Value)
    requires Chains(a, b) && initial.data.tag == a.inputType
    ensures var r := Run([a, b], initial, maxSteps, extra, now);
      && (maxSteps >= 2 ==> r.steps == 2 && r.state.data.tag == b.outputType)
      && (maxSteps == 1 ==> r.steps == 1 && r.state.data.tag == b.inputType)
  {
    var merged := Merge(initial, extra);
    LoopChain(a, b, WithContext(merged, RunStamps(maxSteps, now)), maxSteps, now);
  }

  /** The triggers `done` so far in a step, followed by those of the rest of the scan from skill `i`, make the whole step. */
  ghost predicate ScanSoFar(skills: seq<SkillSpec>, start: State, step: nat, now: Value, i: nat, cur: State, done: seq<Firing>)
  {
    var whole := ScanFrom(skills, 0, start, step, now);
    var rest := ScanFrom(skills, i, cur, step, now);
    whole == Scan(rest.state, rest.chosen, done + rest.firings)
  }

  lemma ScanSoFarNext(skills: seq<SkillSpec>, start: State, step: nat, now: Value, i: nat, cur: State, done: seq<Firing>)
    requires i < |skills| && ScanSoFar(skills, start, step, now, i, cur, done)
    requires !Offer(skills[i], cur, step, now).produced
    ensures var o := Offer(skills[i], cur, step, now);
      ScanSoFar(skills, start, step, now, i + 1, o.state, done + o.firings)
  {
    var o := Offer(skills[i], cur, step, now);
    var rest := ScanFrom(skills, i + 1, o.state, step, now);
    assert done + (o.firings + rest.firings) == done + o.firings + rest.firings;
  }

  lemma ScanSoFarChosen(skills: seq<SkillSpec>, start: State, step: nat, now: Value, i: nat, cur: State, done: seq<Firing>)
    requires i < |skills| && ScanSoFar(skills, start, step, now, i, cur, done)
    requires Offer(skills[i], cur, step, now).produced
    ensures var o := Offer(skills[i], cur, step, now);
      ScanFrom(skills, 0, start, step, now) == Scan(o.state, Some(i), done + o.firings)
  {
  }

  lemma ScanSoFarEnd(skills: seq<SkillSpec>, start: State, step: nat, now: Value, cur: State, done: seq<Firing>)
    requires ScanSoFar(skills, start, step, now, |skills|, cur, done)
    ensures ScanFrom(skills, 0, start, step, now) == Scan(cur, None, done)
  {
    assert done + [] == done;
  }

  /** The triggers `done` so far, followed by those of the rest of the loop from step `steps`, make the whole loop. */
  ghost predicate LoopSoFar(skills: seq<SkillSpec>, start: State, maxSteps: int, now: Value, steps: nat, cur: State, done: seq<Firing>)
  {
    var whole := Loop(skills, start, 0, maxSteps, now);
    var rest := Loop(skills, cur, steps, maxSteps, now);
    whole == Progress(rest.state, rest.steps, done + rest.firings)
  }

  lemma LoopSoFarNext(skills: seq<SkillSpec>, start: State, maxSteps: int, now: Value, steps: nat, cur: State, done: seq<Firing>)
    requires steps < maxSteps && LoopSoFar(skills, start, maxSteps, now, steps, cur, done)
    requires ScanFrom(skills, 0, cur, steps, now).chosen.Some?
    ensures var sc := ScanFrom(skills, 0, cur, steps, now);
      LoopSoFar(skills, start, maxSteps, now, steps + 1, sc.state, done + sc.firings)
  {
    var sc := ScanFrom(skills, 0, cur, steps, now);
    var rest := Loop(skills, sc.state, steps + 1, maxSteps, now);
    assert done + (sc.firings + rest.firings) == done + sc.firings + rest.firings;
  }

  lemma LoopSoFarStop(skills: seq<SkillSpec>, start: State, maxSteps: int, now: Value, steps: nat, cur: State, done: seq<Firing>)
    requires steps < maxSteps && LoopSoFar(skills, start, maxSteps, now, steps, cur, done)
    requires ScanFrom(skills, 0, cur, steps, now).chosen.None?
    ensures var sc := ScanFrom(skills, 0, cur, steps, now);
      Loop(skills, start, 0, maxSteps, now) == Progress(sc.state, steps, done + sc.firings)
  {
  }

  lemma LoopSoFarEnd(skills: seq<SkillSpec>, start: State, maxSteps: int, now: Value, steps: nat, cur: State, done: seq<Firing>)
    requires steps >= maxSteps && LoopSoFar(skills, start, maxSteps, now, steps, cur, done)
    ensures Loop(skills, start, 0, maxSteps, now) == Progress(cur, steps, done)
  {
    assert done + [] == done;
  }

  /** What `Run` returns once the loop from `start` has ended in `cur` after `steps` steps. */
  lemma RunAfterLoop(skills: seq<SkillSpec>, initial: State, maxSteps: int, extra: Dict, now: Value,
                     start: State, cur: State, steps: nat, fired: seq<Firing>)
    requires start == WithContext(Merge(initial, extra), RunStamps(maxSteps, now))
    requires Loop(skills, start, 0, maxSteps, now) == Progress(cur, steps, fired)
    ensures var final := WithContext(cur, DoneStamps(steps, now));
      Run(skills, initial, maxSteps, extra, now) ==
        Progress(final, steps, [Firing(PreExecute, StateKwargs(initial))] + fired + [Firing(PostExecute, StateKwargs(final))])
  {
  }

}
