/**
 * The dispatch pipeline as a specification: which hooks and handler a
 * dispatch calls, in which order, with which values, and what it returns.
 * Hook and handler bodies are given as a `Behaviour`; every call made is
 * recorded in a trace.
 */
module Dispatching {
  import opened Wrappers
  import opened PluginDeco

  /** A `CommandError` carries a message for the user; anything else is another exception. */
  datatype Exception = CommandError(message: string) | OtherError(name: string)

  /** A Python call either returns a value or raises. */
  datatype Outcome<+T> = Returned(value: T) | Raised(exc: Exception)

  /** The extra positional and keyword arguments passed along a dispatch. */
  datatype Args = Args(positional: seq<PyObject>, keyword: map<string, PyObject>)

  /**
   * What the plugin's methods do when called. A value of type
   * `Option<PyObject>` is any Python value, `None` included.
   */
  datatype Behaviour = Behaviour(
    pre: (Function, Option<PyObject>, Args) -> Outcome<Option<PyObject>>,
    handler: (Function, PyObject, Args) -> Outcome<Option<PyObject>>,
    post: (Function, PyObject, Args, Option<PyObject>) -> Outcome<Option<PyObject>>)

  /** One call made during a dispatch, with the values it received. */
  datatype Call =
    | PreCall(hook: Function, input: Option<PyObject>)
    | HandlerCall(func: Function, event: PyObject)
    | PostCall(hook: Function, event: PyObject, result: Option<PyObject>)

  /**
   * Runs the pre-hooks in order, each on the previous one's output. Only an
   * exception stops the chain: a hook that returns `None` passes `None` on.
   */
  function RunPre(hooks: seq<Function>, event: Option<PyObject>, args: Args, b: Behaviour)
    : (r: (Outcome<Option<PyObject>>, seq<Call>))
    ensures |r.1| <= |hooks|
    ensures r.0.Returned? ==> |r.1| == |hooks|
    ensures r.0.Raised? ==> |r.1| >= 1
    ensures forall k | 0 <= k < |r.1| :: r.1[k].PreCall?
    decreases |hooks|
  {
    if hooks == [] then (Returned(event), [])
    else
      var call := PreCall(hooks[0], event);
      match b.pre(hooks[0], event, args)
      case Raised(e) => (Raised(e), [call])
      case Returned(next) =>
        var rest := RunPre(hooks[1..], next, args, b);
        (rest.0, [call] + rest.1)
  }

  /** Runs the post-hooks in order on the same event and result; `Some(e)` when one raised `e`. */
  function RunPost(hooks: seq<Function>, event: PyObject, result: Option<PyObject>, args: Args, b: Behaviour)
    : (r: (Option<Exception>, seq<Call>))
    ensures |r.1| <= |hooks|
    ensures r.0.None? ==> |r.1| == |hooks|
    ensures r.0.Some? ==> |r.1| >= 1
    decreases |hooks|
  {
    if hooks == [] then (None, [])
    else
      var call := PostCall(hooks[0], event, result);
      match b.post(hooks[0], event, args, result)
      case Raised(e) => (Some(e), [call])
      case Returned(_) =>
        var rest := RunPost(hooks[1..], event, result, args, b);
        (rest.0, [call] + rest.1)
  }

  /** The pre-hooks that run are called in list order, one call each. */
  lemma {:induction false} PreChainCalls(hooks: seq<Function>, event: Option<PyObject>, args: Args, b: Behaviour)
    ensures var t := RunPre(hooks, event, args, b).1;
            forall k | 0 <= k < |t| :: t[k].hook == hooks[k]
    decreases |hooks|
  {
    if hooks != [] && b.pre(hooks[0], event, args).Returned? {
      PreChainCalls(hooks[1..], b.pre(hooks[0], event, args).value, args, b);
    }
  }

  /**
   * Every post-hook that runs is called with the same event and the
   * handler's result, in list order.
   */
  lemma {:induction false} PostChainCalls(hooks: seq<Function>, event: PyObject, result: Option<PyObject>, args: Args, b: Behaviour)
    ensures var t := RunPost(hooks, event, result, args, b).1;
            forall k | 0 <= k < |t| :: t[k] == PostCall(hooks[k], event, result)
    decreases |hooks|
  {
    if hooks != [] && b.post(hooks[0], event, args, result).Returned? {
      PostChainCalls(hooks[1..], event, result, args, b);
    }
  }

  /**
   * A raising post-hook ends the chain with its own exception: every hook
   * before the last one called returned, the last one raised the chain's
   * exception, and the chain ends without one exactly when every post-hook
   * returns.
   */
  lemma {:induction false} PostChainOutcome(hooks: seq<Function>, event: PyObject, result: Option<PyObject>, args: Args, b: Behaviour)
    ensures var (o, t) := RunPost(hooks, event, result, args, b);
            && (forall k | 0 <= k < |t| - 1 :: b.post(hooks[k], event, args, result).Returned?)
            && (o.Some? ==> b.post(hooks[|t| - 1], event, args, result) == Raised(o.value))
            && (o.None? <==> forall k | 0 <= k < |hooks| :: b.post(hooks[k], event, args, result).Returned?)
    decreases |hooks|
  {
    if hooks != [] {
      var r := b.post(hooks[0], event, args, result);
      if r.Returned? {
        var tail := hooks[1..];
        PostChainOutcome(tail, event, result, args, b);
        var (o, t) := RunPost(hooks, event, result, args, b);
        var rest := RunPost(tail, event, result, args, b);
        assert o == rest.0 && t == [PostCall(hooks[0], event, result)] + rest.1;
        forall k | 0 <= k < |t| - 1
          ensures b.post(hooks[k], event, args, result).Returned?
        {
          if k > 0 {
            assert hooks[k] == tail[k - 1];
          }
        }
        if o.Some? {
          assert hooks[|t| - 1] == tail[|rest.1| - 1];
        }
        if forall j | 0 <= j < |tail| :: b.post(tail[j], event, args, result).Returned? {
          forall k | 0 <= k < |hooks| ensures b.post(hooks[k], event, args, result).Returned? {
            if k > 0 {
              assert hooks[k] == tail[k - 1];
            }
          }
        } else {
          var j :| 0 <= j < |tail| && !b.post(tail[j], event, args, result).Returned?;
          assert hooks[j + 1] == tail[j];
        }
      }
    }
  }

  /** One step of the pre-hook chain, for loops that walk it a hook at a time. */
  lemma RunPreStep(hooks: seq<Function>, event: Option<PyObject>, args: Args, b: Behaviour)
    requires hooks != []
    ensures b.pre(hooks[0], event, args).Raised? ==>
              RunPre(hooks, event, args, b) == (Raised(b.pre(hooks[0], event, args).exc), [PreCall(hooks[0], event)])
    ensures b.pre(hooks[0], event, args).Returned? ==>
              var rest := RunPre(hooks[1..], b.pre(hooks[0], event, args).value, args, b);
              RunPre(hooks, event, args, b) == (rest.0, [PreCall(hooks[0], event)] + rest.1)
  {
  }

  /** One step of the post-hook chain. */
  lemma RunPostStep(hooks: seq<Function>, event: PyObject, result: Option<PyObject>, args: Args, b: Behaviour)
    requires hooks != []
    ensures b.post(hooks[0], event, args, result).Raised? ==>
              RunPost(hooks, event, result, args, b) == (Some(b.post(hooks[0], event, args, result).exc), [PostCall(hooks[0], event, result)])
    ensures b.post(hooks[0], event, args, result).Returned? ==>
              var rest := RunPost(hooks[1..], event, result, args, b);
              RunPost(hooks, event, result, args, b) == (rest.0, [PostCall(hooks[0], event, result)] + rest.1)
  {
  }

  /**
   * `_dispatch(typ, func, event, *args, **kwargs)` with `pre` and `post` the
   * hook lists of `typ`: the pre-hook chain, then, if the final event is not
   * `None`, the handler once and the post-hooks with its result.
   */
  function DispatchSpec(pre: seq<Function>, post: seq<Function>, func: Function,
                        event: Option<PyObject>, args: Args, b: Behaviour)
    : (r: (Outcome<bool>, seq<Call>))
  {
    var (o, t) := RunPre(pre, event, args, b);
    match o
    case Raised(e) => (Raised(e), t)
    case Returned(None) => (Returned(false), t)
    case Returned(Some(ev)) =>
      var h := HandlerCall(func, ev);
      match b.handler(func, ev, args)
      case Raised(e) => (Raised(e), t + [h])
      case Returned(result) =>
        var (p, pt) := RunPost(post, ev, result, args, b);
        if p.Some? then (Raised(p.value), t + [h] + pt) else (Returned(true), t + [h] + pt)
  }

  /**
   * The pre-hook chain threads the event: the first hook gets the dispatched
   * event, each later hook gets exactly what the one before returned (`None`
   * included), and the chain's result is what the last hook returned.
   */
  lemma {:induction false} PreChainThreadsEvent(hooks: seq<Function>, event: Option<PyObject>, args: Args, b: Behaviour)
    ensures var (o, t) := RunPre(hooks, event, args, b);
            && (|t| > 0 ==> t[0].input == event)
            && (forall k | 0 <= k < |t| - 1 :: b.pre(hooks[k], t[k].input, args) == Returned(t[k + 1].input))
            && (o.Returned? && |hooks| > 0 ==> b.pre(hooks[|t| - 1], t[|t| - 1].input, args) == o)
            && (o.Returned? && hooks == [] ==> o == Returned(event))
            && (o.Raised? ==> b.pre(hooks[|t| - 1], t[|t| - 1].input, args) == o)
    decreases |hooks|
  {
    if hooks != [] {
      var r := b.pre(hooks[0], event, args);
      if r.Returned? {
        PreChainThreadsEvent(hooks[1..], r.value, args, b);
        var (o, t) := RunPre(hooks, event, args, b);
        var rest := RunPre(hooks[1..], r.value, args, b);
        assert t == [PreCall(hooks[0], event)] + rest.1;
        forall k | 0 <= k < |t| - 1
          ensures b.pre(hooks[k], t[k].input, args) == Returned(t[k + 1].input)
        {
          if k > 0 {
            assert t[k] == rest.1[k - 1] && t[k + 1] == rest.1[k];
            assert hooks[k] == hooks[1..][k - 1];
          }
        }
      }
    }
  }

  /**
   * A pre-hook that ran and returned `None` does not end the chain: when a
   * hook follows it, that hook is called, and with `None`, whether or not a
   * later hook raises.
   */
  lemma NoneIsPassedOn(hooks: seq<Function>, event: Option<PyObject>, args: Args, b: Behaviour, k: nat)
    requires k < |RunPre(hooks, event, args, b).1|
    requires k + 1 < |hooks|
    requires b.pre(hooks[k], RunPre(hooks, event, args, b).1[k].input, args) == Returned(None)
    ensures k + 1 < |RunPre(hooks, event, args, b).1|
    ensures RunPre(hooks, event, args, b).1[k + 1] == PreCall(hooks[k + 1], None)
  {
    PreChainThreadsEvent(hooks, event, args, b);
    PreChainCalls(hooks, event, args, b);
  }

  /**
   * A veto (final event `None`): every pre-hook ran, the dispatch returns
   * False, and neither the handler nor any post-hook ran.
   */
  lemma DispatchVetoed(pre: seq<Function>, post: seq<Function>, func: Function,
                       event: Option<PyObject>, args: Args, b: Behaviour)
    requires RunPre(pre, event, args, b).0 == Returned(None)
    ensures var (o, t) := DispatchSpec(pre, post, func, event, args, b);
            && o == Returned(false)
            && t == RunPre(pre, event, args, b).1
            && |t| == |pre|
            && forall k | 0 <= k < |t| :: t[k].PreCall? && t[k].hook == pre[k]
  {
    PreChainCalls(pre, event, args, b);
  }

  /**
   * A completed dispatch: the pre-hooks ran in order, then the handler once
   * on the final event, then every post-hook in order with that event and
   * the handler's result; the dispatch returns True.
   */
  lemma DispatchCompleted(pre: seq<Function>, post: seq<Function>, func: Function,
                          event: Option<PyObject>, args: Args, b: Behaviour, ev: PyObject, result: Option<PyObject>)
    requires RunPre(pre, event, args, b).0 == Returned(Some(ev))
    requires b.handler(func, ev, args) == Returned(result)
    requires RunPost(post, ev, result, args, b).0.None?
    ensures DispatchSpec(pre, post, func, event, args, b).0 == Returned(true)
    ensures CompletedShape(pre, post, func, ev, result, DispatchSpec(pre, post, func, event, args, b).1)
  {
    CompletedTrace(pre, post, func, event, args, b, ev, result);
    PreChainCalls(pre, event, args, b);
    PostChainCalls(post, ev, result, args, b);
    CompletedTraceShape(pre, post, func, ev, result,
      RunPre(pre, event, args, b).1, RunPost(post, ev, result, args, b).1);
  }

  /**
   * The calls of a completed dispatch: the pre-hooks in order, the handler
   * once on the final event, then every post-hook in order with that event
   * and the handler's result.
   */
  ghost predicate CompletedShape(pre: seq<Function>, post: seq<Function>, func: Function,
                                 ev: PyObject, result: Option<PyObject>, t: seq<Call>)
  {
    && |t| == |pre| + 1 + |post|
    && (forall k | 0 <= k < |pre| :: t[k].PreCall? && t[k].hook == pre[k])
    && t[|pre|] == HandlerCall(func, ev)
    && (forall k | 0 <= k < |t| :: t[k].HandlerCall? <==> k == |pre|)
    && (forall j | 0 <= j < |post| :: t[|pre| + 1 + j] == PostCall(post[j], ev, result))
  }

  lemma CompletedTraceShape(pre: seq<Function>, post: seq<Function>, func: Function,
                            ev: PyObject, result: Option<PyObject>, pt: seq<Call>, qt: seq<Call>)
    requires |pt| == |pre| && forall k | 0 <= k < |pt| :: pt[k].PreCall? && pt[k].hook == pre[k]
    requires |qt| == |post| && forall k | 0 <= k < |qt| :: qt[k] == PostCall(post[k], ev, result)
    ensures CompletedShape(pre, post, func, ev, result, pt + [HandlerCall(func, ev)] + qt)
  {
    var t := pt + [HandlerCall(func, ev)] + qt;
    forall k | 0 <= k < |t| ensures t[k].HandlerCall? <==> k == |pre| {
      if k < |pre| {
        assert t[k] == pt[k];
      } else if k > |pre| {
        assert t[k] == qt[k - |pre| - 1];
      }
    }
    forall j | 0 <= j < |post| ensures t[|pre| + 1 + j] == PostCall(post[j], ev, result) {
      assert t[|pre| + 1 + j] == qt[j];
    }
    forall k | 0 <= k < |pre| ensures t[k].PreCall? && t[k].hook == pre[k] {
      assert t[k] == pt[k];
    }
  }

  lemma CompletedTrace(pre: seq<Function>, post: seq<Function>, func: Function,
                       event: Option<PyObject>, args: Args, b: Behaviour, ev: PyObject, result: Option<PyObject>)
    requires RunPre(pre, event, args, b).0 == Returned(Some(ev))
    requires b.handler(func, ev, args) == Returned(result)
    requires RunPost(post, ev, result, args, b).0.None?
    ensures DispatchSpec(pre, post, func, event, args, b)
            == (Returned(true), RunPre(pre, event, args, b).1 + [HandlerCall(func, ev)] + RunPost(post, ev, result, args, b).1)
  {
  }

  /**
   * A pre-hook that raises: the exception leaves the dispatch, raised by the
   * last pre-hook called; neither the handler nor any post-hook runs.
   */
  lemma PreHookRaises(pre: seq<Function>, post: seq<Function>, func: Function,
                      event: Option<PyObject>, args: Args, b: Behaviour, e: Exception)
    requires RunPre(pre, event, args, b).0 == Raised(e)
    ensures var (o, t) := DispatchSpec(pre, post, func, event, args, b);
            && o == Raised(e)
            && t == RunPre(pre, event, args, b).1
            && 1 <= |t| <= |pre|
            && b.pre(pre[|t| - 1], t[|t| - 1].input, args) == Raised(e)
            && forall k | 0 <= k < |t| :: t[k].PreCall?
  {
    PreChainThreadsEvent(pre, event, args, b);
  }

  /**
   * A post-hook that raises: the exception leaves the dispatch after the
   * handler ran; the post-hooks before it returned and the ones after it
   * are not called.
   */
  lemma PostHookRaises(pre: seq<Function>, post: seq<Function>, func: Function,
                       event: Option<PyObject>, args: Args, b: Behaviour,
                       ev: PyObject, result: Option<PyObject>, e: Exception)
    requires RunPre(pre, event, args, b).0 == Returned(Some(ev))
    requires b.handler(func, ev, args) == Returned(result)
    requires RunPost(post, ev, result, args, b).0 == Some(e)
    ensures var (o, t) := DispatchSpec(pre, post, func, event, args, b);
            var qt := RunPost(post, ev, result, args, b).1;
            && o == Raised(e)
            && t == RunPre(pre, event, args, b).1 + [HandlerCall(func, ev)] + qt
            && 1 <= |qt| <= |post|
            && qt[|qt| - 1] == PostCall(post[|qt| - 1], ev, result)
            && b.post(post[|qt| - 1], ev, args, result) == Raised(e)
            && forall k | 0 <= k < |qt| - 1 :: b.post(post[k], ev, args, result).Returned?
  {
    PostChainOutcome(post, ev, result, args, b);
    PostChainCalls(post, ev, result, args, b);
  }

  /** A handler that raises: the exception propagates and no post-hook runs. */
  lemma HandlerRaises(pre: seq<Function>, post: seq<Function>, func: Function,
                      event: Option<PyObject>, args: Args, b: Behaviour, ev: PyObject, e: Exception)
    requires RunPre(pre, event, args, b).0 == Returned(Some(ev))
    requires b.handler(func, ev, args) == Raised(e)
    ensures var (o, t) := DispatchSpec(pre, post, func, event, args, b);
            && o == Raised(e)
            && t == RunPre(pre, event, args, b).1 + [HandlerCall(func, ev)]
            && forall k | 0 <= k < |t| :: !t[k].PostCall?
  {
  }

  /**
   * A dispatch only ever calls its own handler and the hooks in the lists
   * it was given: hooks registered for the other kind never run.
   */
  lemma {:induction false} DispatchCallsOnlyItsHooks(pre: seq<Function>, post: seq<Function>, func: Function,
                                                     event: Option<PyObject>, args: Args, b: Behaviour)
    ensures var t := DispatchSpec(pre, post, func, event, args, b).1;
            forall c | c in t ::
              && (c.PreCall? ==> c.hook in pre)
              && (c.HandlerCall? ==> c.func == func)
              && (c.PostCall? ==> c.hook in post)
  {
    var (o, pt) := RunPre(pre, event, args, b);
    var t := DispatchSpec(pre, post, func, event, args, b).1;
    forall c | c in t
      ensures && (c.PreCall? ==> c.hook in pre)
              && (c.HandlerCall? ==> c.func == func)
              && (c.PostCall? ==> c.hook in post)
    {
      var k :| 0 <= k < |t| && t[k] == c;
      if k < |pt| {
        PreChainCalls(pre, event, args, b);
        assert t[k] == pt[k];
      } else if k > |pt| {
        var ev := o.value.value;
        var result := b.handler(func, ev, args).value;
        var qt := RunPost(post, ev, result, args, b).1;
        PostChainCalls(post, ev, result, args, b);
        assert t == pt + [HandlerCall(func, ev)] + qt;
        assert t[k] == qt[k - |pt| - 1];
      }
    }
  }
}
