/**
 * The plugin registry: the event bus a plugin subscribes to, the plugin
 * object with its command table, listener subscriptions and hook tables,
 * the construction-time scan that registers every tagged method, and the
 * entry points that run the dispatch pipeline and the command adapter.
 */
module Plugins {
  import opened Wrappers
  import opened PluginDeco
  import opened Dispatching

  /** `functools.partial(owner._dispatch, kind, func)`: a handler that always goes through `owner`'s dispatch. */
  datatype Wrapper = Wrapper(owner: Plugin, kind: Kind, func: Function)

  /** A listener subscription held by the event bus. */
  datatype Subscription = Subscription(eventName: string, callback: Wrapper)

  /** `Command(owner, wrapped, *args, **kwargs)`; what the command object does with them is not modelled. */
  datatype CommandEntry = CommandEntry(owner: Plugin, wrapped: Wrapper, args: seq<PyObject>, kwargs: map<string, PyObject>)

  /** The client's event bus (`bot.client.events`). A handle is the position of its subscription. */
  class EventBus {
    var subscriptions: seq<Subscription>

    constructor ()
      ensures subscriptions == []
    {
      subscriptions := [];
    }

    /** `on(name, callback)`: subscribes and returns a handle no earlier subscription has. */
    method On(eventName: string, callback: Wrapper) returns (handle: nat)
      modifies this
      ensures subscriptions == old(subscriptions) + [Subscription(eventName, callback)]
      ensures handle == |old(subscriptions)|
    {
      handle := |subscriptions|;
      subscriptions := subscriptions + [Subscription(eventName, callback)];
    }
  }

  /** One registration call the constructor makes. */
  datatype Registration =
    | ListenerReg(func: Function, eventName: string)
    | CommandReg(func: Function, args: seq<PyObject>, kwargs: map<string, PyObject>)
    | TriggerReg(kind: Kind, when: When, func: Function)

  /**
   * The registration a record of `func` leads to. A record held as
   * `OtherMeta` is routed by its type string alone: a `pre_X`/`post_X` type
   * naming a hook table and a kind is a trigger, every other type leads to
   * no registration.
   */
  function RegistrationFor(func: Function, m: Meta): Option<Registration> {
    match m
    case ListenerMeta(name) => Some(ListenerReg(func, name))
    case CommandMeta(args, kwargs) => Some(CommandReg(func, args, kwargs))
    case TriggerMeta(w, k) => Some(TriggerReg(k, w, func))
    case OtherMeta(t) => TriggerFor(func, RouteOf(t))
  }

  /** The trigger registration a route asks for, when it names a table and a kind. */
  function TriggerFor(func: Function, route: Route): Option<Registration> {
    if route.ToTrigger? && WhenOf(route.when).Some? && KindOf(route.typ).Some? then
      Some(TriggerReg(KindOf(route.typ).value, WhenOf(route.when).value, func))
    else
      None
  }

  function AsSeq<T>(o: Option<T>): seq<T> {
    if o.Some? then [o.value] else []
  }

  /** The registrations for one method's records, in record order. */
  function RecordRegistrations(func: Function, records: seq<Meta>): seq<Registration>
    decreases |records|
  {
    if records == [] then []
    else RecordRegistrations(func, records[..|records| - 1]) + AsSeq(RegistrationFor(func, records[|records| - 1]))
  }

  /** The `meta` lists of the methods, read in one go. */
  function MetaLists(methods: seq<Function>): (metas: seq<seq<Meta>>)
    reads methods
    ensures |metas| == |methods|
    ensures forall k | 0 <= k < |methods| :: metas[k] == MetaList(methods[k].meta)
  {
    seq(|methods|, k requires 0 <= k < |methods| reads methods => MetaList(methods[k].meta))
  }

  /** The registrations of a scan over methods with the given records: method by method, each in record order. */
  function ScanOf(methods: seq<Function>, metas: seq<seq<Meta>>): seq<Registration>
    requires |metas| == |methods|
    decreases |methods|
  {
    if methods == [] then []
    else
      var n := |methods| - 1;
      ScanOf(methods[..n], metas[..n]) + RecordRegistrations(methods[n], metas[n])
  }

  /** The registrations the constructor's scan makes for these methods as they are now. */
  function ScanRegistrations(methods: seq<Function>): seq<Registration>
    reads methods
  {
    ScanOf(methods, MetaLists(methods))
  }

  /** The registration state: the plugin's four tables and the bus's subscriptions. */
  datatype Registry = Registry(
    listeners: seq<nat>,
    commands: map<string, CommandEntry>,
    pre: map<Kind, seq<Function>>,
    post: map<Kind, seq<Function>>,
    subscriptions: seq<Subscription>)

  /** A hook table has exactly the keys `'command'` and `'listener'`. */
  predicate KindKeyed(hooks: map<Kind, seq<Function>>) {
    forall k: Kind :: k in hooks
  }

  predicate Keyed(r: Registry) {
    KindKeyed(r.pre) && KindKeyed(r.post)
  }

  function EmptyHooks(): (h: map<Kind, seq<Function>>)
    ensures KindKeyed(h) && h[CommandKind] == [] && h[ListenerKind] == []
  {
    var h := map[CommandKind := [], ListenerKind := []];
    assert KindKeyed(h) by {
      forall k: Kind ensures k in h {
        if k.CommandKind? {
          assert k == CommandKind;
        } else {
          assert k == ListenerKind;
        }
      }
    }
    h
  }

  function HookTable(r: Registry, when: When): map<Kind, seq<Function>> {
    if when == Pre then r.pre else r.post
  }

  /** The command-table entry `register_command` builds. */
  function EntryFor(owner: Plugin, func: Function, args: seq<PyObject>, kwargs: map<string, PyObject>): CommandEntry {
    CommandEntry(owner, Wrapper(owner, CommandKind, func), args, kwargs)
  }

  /** The effect of one registration call on the state. */
  function Register(owner: Plugin, r: Registry, reg: Registration): (r': Registry)
    requires Keyed(r)
    ensures Keyed(r')
  {
    match reg
    case ListenerReg(f, name) =>
      r.(listeners := r.listeners + [|r.subscriptions|],
         subscriptions := r.subscriptions + [Subscription(name, Wrapper(owner, ListenerKind, f))])
    case CommandReg(f, args, kwargs) =>
      r.(commands := r.commands[f.name := EntryFor(owner, f, args, kwargs)])
    case TriggerReg(k, when, f) =>
      if when == Pre then r.(pre := r.pre[k := r.pre[k] + [f]])
      else r.(post := r.post[k := r.post[k] + [f]])
  }

  /** The effect of a sequence of registration calls, made in order. */
  function RegisterAll(owner: Plugin, r: Registry, regs: seq<Registration>): (r': Registry)
    requires Keyed(r)
    ensures Keyed(r')
    decreases |regs|
  {
    if regs == [] then r
    else Register(owner, RegisterAll(owner, r, regs[..|regs| - 1]), regs[|regs| - 1])
  }

  /**
   * Each registration call touches only its own table: a trigger one hook
   * list (its new last element), a command one name, a listener the
   * listener list and the bus.
   */
  lemma RegisterFrame(owner: Plugin, r: Registry, reg: Registration)
    requires Keyed(r)
    ensures var r' := Register(owner, r, reg);
            && (reg.TriggerReg? ==>
                  && r'.listeners == r.listeners && r'.commands == r.commands && r'.subscriptions == r.subscriptions
                  && HookTable(r', reg.when)[reg.kind] == HookTable(r, reg.when)[reg.kind] + [reg.func]
                  && forall k: Kind, w: When | k != reg.kind || w != reg.when :: HookTable(r', w)[k] == HookTable(r, w)[k])
            && (reg.CommandReg? ==>
                  && r'.listeners == r.listeners && r'.pre == r.pre && r'.post == r.post && r'.subscriptions == r.subscriptions
                  && r'.commands.Keys == r.commands.Keys + {reg.func.name}
                  && forall n | n in r.commands && n != reg.func.name :: r'.commands[n] == r.commands[n])
            && (reg.ListenerReg? ==>
                  && r'.commands == r.commands && r'.pre == r.pre && r'.post == r.post
                  && r'.listeners == r.listeners + [|r.subscriptions|]
                  && |r'.subscriptions| == |r.subscriptions| + 1)
  {
  }

  /**
   * The registration depends only on what the record's type string routes
   * to: skipped types register nothing, and every record whose type is
   * `pre_X`/`post_X` for a table and a kind, however it is held, registers
   * that trigger.
   */
  lemma RegistrationFollowsTypeString(func: Function, m: Meta)
    ensures match RouteOf(TypeName(m))
      case Ignored => RegistrationFor(func, m) == None
      case ToTrigger(w, t) =>
        WhenOf(w).Some? && KindOf(t).Some? ==>
          RegistrationFor(func, m) == Some(TriggerReg(KindOf(t).value, WhenOf(w).value, func))
      case ToListener => m.ListenerMeta? ==> RegistrationFor(func, m) == Some(ListenerReg(func, m.eventName))
      case ToCommand => m.CommandMeta? ==> RegistrationFor(func, m) == Some(CommandReg(func, m.args, m.kwargs))
  {
    if !m.OtherMeta? {
      RouteOfTypeName(m);
      if m.TriggerMeta? {
        NamesRoundTrip(m.kind, m.when);
      }
    }
  }

  /** A `pre_command` record registers the same command pre-hook whether or not it came from the decorator. */
  lemma PreCommandRecordEitherWay(func: Function)
    ensures RegistrationFor(func, OtherMeta("pre_command")) == RegistrationFor(func, PreCommand())
    ensures RegistrationFor(func, PreCommand()) == Some(TriggerReg(CommandKind, Pre, func))
  {
    RegistrationFollowsTypeString(func, OtherMeta("pre_command"));
    RouteOfTypeName(PreCommand());
  }

  /** Registering `a` and then `b` is registering `a + b`. */
  lemma {:induction false} RegisterAllAppend(owner: Plugin, r: Registry, a: seq<Registration>, b: seq<Registration>)
    requires Keyed(r)
    ensures RegisterAll(owner, r, a + b) == RegisterAll(owner, RegisterAll(owner, r, a), b)
    decreases |b|
  {
    if b == [] {
      assert a + b == a;
    } else {
      assert (a + b)[..|a + b| - 1] == a + b[..|b| - 1];
      RegisterAllAppend(owner, r, a, b[..|b| - 1]);
    }
  }

  predicate CommandNamed(reg: Registration, name: string) {
    reg.CommandReg? && reg.func.name == name
  }

  /** The position of the last command registration under `name`, if any. */
  function LastCommand(regs: seq<Registration>, name: string): (i: Option<nat>)
    ensures i.Some? ==> i.value < |regs| && CommandNamed(regs[i.value], name)
    ensures i.Some? ==> forall j | i.value < j < |regs| :: !CommandNamed(regs[j], name)
    ensures i.None? ==> forall j | 0 <= j < |regs| :: !CommandNamed(regs[j], name)
    decreases |regs|
  {
    if regs == [] then None
    else if CommandNamed(regs[|regs| - 1], name) then Some(|regs| - 1)
    else LastCommand(regs[..|regs| - 1], name)
  }

  /** The functions registered as `when`-hooks of kind `k`, in registration order. */
  function Triggered(regs: seq<Registration>, k: Kind, when: When): seq<Function>
    decreases |regs|
  {
    if regs == [] then []
    else
      var last := regs[|regs| - 1];
      Triggered(regs[..|regs| - 1], k, when)
        + (if last.TriggerReg? && last.kind == k && last.when == when then [last.func] else [])
  }

  /** The subscriptions the listener registrations ask for, in registration order. */
  function ListenerSubscriptions(owner: Plugin, regs: seq<Registration>): (s: seq<Subscription>)
    ensures |s| <= |regs|
    ensures forall i | 0 <= i < |s| :: s[i].callback.owner == owner && s[i].callback.kind == ListenerKind
    decreases |regs|
  {
    if regs == [] then []
    else
      var last := regs[|regs| - 1];
      ListenerSubscriptions(owner, regs[..|regs| - 1])
        + (if last.ListenerReg? then [Subscription(last.eventName, Wrapper(owner, ListenerKind, last.func))] else [])
  }

  /**
   * Command names: after a run of registrations, `name` is bound by the last
   * command registration under it (later ones overwrite earlier ones);
   * without one, its entry is what it was before.
   */
  lemma {:induction false} CommandsLastWins(owner: Plugin, r: Registry, regs: seq<Registration>, name: string)
    requires Keyed(r)
    ensures var c := RegisterAll(owner, r, regs).commands;
            match LastCommand(regs, name)
            case Some(i) => name in c && c[name] == EntryFor(owner, regs[i].func, regs[i].args, regs[i].kwargs)
            case None => (name in c <==> name in r.commands) && (name in c ==> c[name] == r.commands[name])
    decreases |regs|
  {
    if regs != [] {
      var init := regs[..|regs| - 1];
      CommandsLastWins(owner, r, init, name);
      if !CommandNamed(regs[|regs| - 1], name) {
        assert LastCommand(regs, name) == LastCommand(init, name);
      }
    }
  }

  /** Each hook list gets its hooks appended in registration order, duplicates kept. */
  lemma {:induction false} HooksInRegistrationOrder(owner: Plugin, r: Registry, regs: seq<Registration>, k: Kind, when: When)
    requires Keyed(r)
    ensures HookTable(RegisterAll(owner, r, regs), when)[k] == HookTable(r, when)[k] + Triggered(regs, k, when)
    decreases |regs|
  {
    if regs != [] {
      HooksInRegistrationOrder(owner, r, regs[..|regs| - 1], k, when);
    }
  }

  /**
   * Listener registrations append their subscriptions to the bus in order,
   * and the plugin keeps one new handle per subscription: the positions
   * after the bus's earlier subscriptions, so no handle is reused.
   */
  lemma {:induction false} ListenersSubscribed(owner: Plugin, r: Registry, regs: seq<Registration>)
    requires Keyed(r)
    ensures var r' := RegisterAll(owner, r, regs);
            var subs := ListenerSubscriptions(owner, regs);
            && r'.subscriptions == r.subscriptions + subs
            && |r'.listeners| == |r.listeners| + |subs|
            && r'.listeners[..|r.listeners|] == r.listeners
            && forall i | |r.listeners| <= i < |r'.listeners| :: r'.listeners[i] == |r.subscriptions| + (i - |r.listeners|)
    decreases |regs|
  {
    if regs != [] {
      var init := regs[..|regs| - 1];
      ListenersSubscribed(owner, r, init);
      var mid := RegisterAll(owner, r, init);
      var r' := RegisterAll(owner, r, regs);
      var subs := ListenerSubscriptions(owner, regs);
      if regs[|regs| - 1].ListenerReg? {
        assert r'.listeners == mid.listeners + [|mid.subscriptions|];
        forall i | |r.listeners| <= i < |r'.listeners|
          ensures r'.listeners[i] == |r.subscriptions| + (i - |r.listeners|)
        {
          if i < |r'.listeners| - 1 {
            assert r'.listeners[i] == mid.listeners[i];
          }
        }
      }
    }
  }

  /**
   * A method whose records all come from the decorators leads to exactly
   * one registration per record, in the order the records were attached.
   */
  lemma {:induction false} OneRegistrationPerRecord(func: Function, records: seq<Meta>)
    requires forall i | 0 <= i < |records| :: !records[i].OtherMeta?
    ensures var regs := RecordRegistrations(func, records);
            |regs| == |records| &&
            forall i | 0 <= i < |records| :: Some(regs[i]) == RegistrationFor(func, records[i])
    decreases |records|
  {
    if records != [] {
      var init := records[..|records| - 1];
      OneRegistrationPerRecord(func, init);
      var regs := RecordRegistrations(func, records);
      forall i | 0 <= i < |records| ensures Some(regs[i]) == RegistrationFor(func, records[i]) {
        if i < |records| - 1 {
          assert records[i] == init[i];
        }
      }
    }
  }

  /**
   * `Plugin.execute`: runs the command (whose outcome is `ran`). A
   * `CommandError` becomes one reply with its message and a False result;
   * a returned value comes back unchanged; any other exception propagates.
   * The second component lists the replies sent.
   */
  function Execute(ran: Outcome<bool>): (r: (Outcome<bool>, seq<string>))
    ensures ran.Returned? ==> r == (ran, [])
    ensures ran.Raised? && ran.exc.CommandError? ==> r == (Returned(false), [ran.exc.message])
    ensures ran.Raised? && !ran.exc.CommandError? ==> r == (ran, [])
  {
    match ran
    case Raised(CommandError(message)) => (Returned(false), [message])
    case _ => (ran, [])
  }

  /**
   * The adapter contains command errors: its result never raises one, and
   * it replies at most once, exactly when the command raised one.
   */
  lemma ExecuteContainsCommandErrors(ran: Outcome<bool>)
    ensures var (o, replies) := Execute(ran);
            && !(o.Raised? && o.exc.CommandError?)
            && |replies| <= 1
            && (|replies| == 1 <==> ran.Raised? && ran.exc.CommandError?)
  {
  }

  /**
   * A command handler raising `CommandError(m)`: the dispatch stops before
   * any post-hook, and executing the command replies `m` once and yields False.
   */
  lemma CommandErrorFromHandler(pre: seq<Function>, post: seq<Function>, func: Function,
                                event: Option<PyObject>, args: Args, b: Behaviour, ev: PyObject, m: string)
    requires RunPre(pre, event, args, b).0 == Returned(Some(ev))
    requires b.handler(func, ev, args) == Raised(CommandError(m))
    ensures var (o, t) := DispatchSpec(pre, post, func, event, args, b);
            && Execute(o) == (Returned(false), [m])
            && forall k | 0 <= k < |t| :: !t[k].PostCall?
  {
    HandlerRaises(pre, post, func, event, args, b, ev, CommandError(m));
  }

  /**
   * A plugin: `listeners` holds subscription handles, `commands` the command
   * table keyed by function name, `pre` and `post` the hook tables.
   */
  class Plugin {
    const bus: EventBus
    var listeners: seq<nat>
    var commands: map<string, CommandEntry>
    var pre: map<Kind, seq<Function>>
    var post: map<Kind, seq<Function>>

    ghost predicate Valid()
      reads this
    {
      KindKeyed(pre) && KindKeyed(post)
    }

    function State(): (r: Registry)
      reads this, bus
      ensures Valid() ==> Keyed(r)
    {
      Registry(listeners, commands, pre, post, bus.subscriptions)
    }

    /**
     * Scans `methods` (the plugin's bound methods in enumeration order) and
     * makes one registration call per record, method by method and record
     * by record.
     */
    constructor (bus: EventBus, methods: seq<Function>)
      modifies bus
      ensures this.bus == bus && Valid()
      ensures State() == RegisterAll(this, Registry([], map[], EmptyHooks(), EmptyHooks(), old(bus.subscriptions)),
                                     ScanRegistrations(methods))
    {
      this.bus := bus;
      listeners := [];
      commands := map[];
      pre := EmptyHooks();
      post := EmptyHooks();
      new;
      ScanMethods(methods);
    }

    /** The scan loop of the constructor: every method's records, in enumeration order. */
    method ScanMethods(methods: seq<Function>)
      requires Valid()
      modifies this, bus
      ensures Valid()
      ensures State() == RegisterAll(this, old(State()), ScanRegistrations(methods))
    {
      ghost var start := State();
      ghost var metas := MetaLists(methods);
      var i := 0;
      while i < |methods|
        invariant 0 <= i <= |methods|
        invariant Valid()
        invariant forall k | 0 <= k < |methods| :: MetaList(methods[k].meta) == metas[k]
        invariant State() == RegisterAll(this, start, ScanOf(methods[..i], metas[..i]))
      {
        var f := methods[i];
        var records := MetaList(f.meta);
        ghost var done := ScanOf(methods[..i], metas[..i]);
        RegisterRecords(f, records);
        RegisterAllAppend(this, start, done, RecordRegistrations(f, records));
        assert ScanOf(methods[..i + 1], metas[..i + 1]) == done + RecordRegistrations(f, records) by {
          assert methods[..i + 1][..i] == methods[..i];
          assert metas[..i + 1][..i] == metas[..i];
        }
        i := i + 1;
      }
      assert methods[..i] == methods && metas[..i] == metas;
      assert MetaLists(methods) == metas;
    }

    /** The records of one method, each routed to its registration call, in list order. */
    method RegisterRecords(f: Function, records: seq<Meta>)
      requires Valid()
      modifies this, bus
      ensures Valid()
      ensures State() == RegisterAll(this, old(State()), RecordRegistrations(f, records))
    {
      ghost var start := State();
      var j := 0;
      assert records[..0] == [];
      while j < |records|
        invariant 0 <= j <= |records|
        invariant Valid()
        invariant State() == RegisterAll(this, start, RecordRegistrations(f, records[..j]))
      {
        ghost var before := RecordRegistrations(f, records[..j]);
        assert records[..j + 1][..j] == records[..j];
        assert RecordRegistrations(f, records[..j + 1]) == before + AsSeq(RegistrationFor(f, records[j]));
        RegisterRecord(f, records[j]);
        RegisterAllAppend(this, start, before, AsSeq(RegistrationFor(f, records[j])));
        j := j + 1;
      }
      assert records[..|records|] == records;
    }

    /** One record: a listener, a command, a trigger, or (any other type) nothing. */
    method RegisterRecord(f: Function, m: Meta)
      requires Valid()
      modifies this, bus
      ensures Valid()
      ensures State() == RegisterAll(this, old(State()), AsSeq(RegistrationFor(f, m)))
    {
      ghost var r := State();
      match m {
        case ListenerMeta(name) =>
          RegisterListener(f, name);
        case CommandMeta(args, kwargs) =>
          RegisterCommand(f, args, kwargs);
        case TriggerMeta(when, kind) =>
          RegisterTrigger(kind, when, f);
        case OtherMeta(t) =>
          var route := RouteOf(t);
          if route.ToTrigger? {
            var when := WhenOf(route.when);
            var kind := KindOf(route.typ);
            if when.Some? && kind.Some? {
              RegisterTrigger(kind.value, when.value, f);
            }
          }
      }
      ghost var regs := AsSeq(RegistrationFor(f, m));
      if regs != [] {
        assert regs[..0] == [];
      }
    }

    /** `register_trigger(typ, when, func)`: appends `func` to that one hook list. */
    method RegisterTrigger(typ: Kind, when: When, func: Function)
      requires Valid()
      modifies this
      ensures Valid()
      ensures State() == Register(this, old(State()), TriggerReg(typ, when, func))
    {
      if when == Pre {
        pre := pre[typ := pre[typ] + [func]];
      } else {
        post := post[typ := post[typ] + [func]];
      }
    }

    /** `register_listener(func, name)`: subscribes a listener-kind wrapper and keeps the handle. */
    method RegisterListener(func: Function, name: string)
      requires Valid()
      modifies this, bus
      ensures Valid()
      ensures State() == Register(this, old(State()), ListenerReg(func, name))
    {
      var handle := bus.On(name, Wrapper(this, ListenerKind, func));
      listeners := listeners + [handle];
    }

    /** `register_command(func, *args, **kwargs)`: binds a command-kind wrapper under `func`'s name. */
    method RegisterCommand(func: Function, args: seq<PyObject>, kwargs: map<string, PyObject>)
      requires Valid()
      modifies this
      ensures Valid()
      ensures State() == Register(this, old(State()), CommandReg(func, args, kwargs))
    {
      commands := commands[func.name := EntryFor(this, func, args, kwargs)];
    }

    /**
     * `_dispatch(typ, func, event, *args, **kwargs)`: runs the pre-hooks of
     * `typ`, stops with False if the event is then None, else calls the
     * handler and the post-hooks of `typ` and returns True.
     */
    method Dispatch(typ: Kind, func: Function, event: Option<PyObject>, args: Args, b: Behaviour)
      returns (outcome: Outcome<bool>, trace: seq<Call>)
      requires Valid()
      ensures (outcome, trace) == DispatchSpec(pre[typ], post[typ], func, event, args, b)
    {
      var o;
      o, trace := RunPreHooks(pre[typ], event, args, b);
      if o.Raised? {
        outcome := Raised(o.exc);
        return;
      }
      var ev := o.value;
      if ev.None? {
        outcome := Returned(false);
        return;
      }
      trace := trace + [HandlerCall(func, ev.value)];
      var result := b.handler(func, ev.value, args);
      if result.Raised? {
        outcome := Raised(result.exc);
        return;
      }
      var failure, postTrace := RunPostHooks(post[typ], ev.value, result.value, args, b);
      trace := trace + postTrace;
      outcome := if failure.Some? then Raised(failure.value) else Returned(true);
    }
  }

  /** The pre-hook loop of `_dispatch`: each hook's return value replaces the event. */
  method RunPreHooks(hooks: seq<Function>, event: Option<PyObject>, args: Args, b: Behaviour)
    returns (outcome: Outcome<Option<PyObject>>, trace: seq<Call>)
    ensures (outcome, trace) == RunPre(hooks, event, args, b)
  {
    ghost var whole := RunPre(hooks, event, args, b);
    var ev := event;
    trace := [];
    var i := 0;
    while i < |hooks|
      invariant 0 <= i <= |hooks|
      invariant whole.0 == RunPre(hooks[i..], ev, args, b).0
      invariant whole.1 == trace + RunPre(hooks[i..], ev, args, b).1
    {
      ghost var here := RunPre(hooks[i..], ev, args, b);
      assert hooks[i..][0] == hooks[i] && hooks[i..][1..] == hooks[i + 1..];
      RunPreStep(hooks[i..], ev, args, b);
      var call := PreCall(hooks[i], ev);
      var o := b.pre(hooks[i], ev, args);
      if o.Raised? {
        assert here == (Raised(o.exc), [call]);
        trace := trace + [call];
        outcome := Raised(o.exc);
        return;
      }
      ghost var next := RunPre(hooks[i + 1..], o.value, args, b);
      assert here == (next.0, [call] + next.1);
      assert trace + ([call] + next.1) == (trace + [call]) + next.1;
      trace := trace + [call];
      ev := o.value;
      i := i + 1;
    }
    assert hooks[i..] == [];
    assert RunPre(hooks[i..], ev, args, b) == (Returned(ev), []);
    assert trace + [] == trace;
    outcome := Returned(ev);
  }

  /** The post-hook loop of `_dispatch`: every hook gets the same event and result; return values are dropped. */
  method RunPostHooks(hooks: seq<Function>, event: PyObject, result: Option<PyObject>, args: Args, b: Behaviour)
    returns (failure: Option<Exception>, trace: seq<Call>)
    ensures (failure, trace) == RunPost(hooks, event, result, args, b)
  {
    ghost var whole := RunPost(hooks, event, result, args, b);
    trace := [];
    var i := 0;
    while i < |hooks|
      invariant 0 <= i <= |hooks|
      invariant whole.0 == RunPost(hooks[i..], event, result, args, b).0
      invariant whole.1 == trace + RunPost(hooks[i..], event, result, args, b).1
    {
      ghost var here := RunPost(hooks[i..], event, result, args, b);
      assert hooks[i..][0] == hooks[i] && hooks[i..][1..] == hooks[i + 1..];
      RunPostStep(hooks[i..], event, result, args, b);
      var call := PostCall(hooks[i], event, result);
      var o := b.post(hooks[i], event, args, result);
      if o.Raised? {
        assert here == (Some(o.exc), [call]);
        trace := trace + [call];
        failure := Some(o.exc);
        return;
      }
      ghost var next := RunPost(hooks[i + 1..], event, result, args, b);
      assert here == (next.0, [call] + next.1);
      assert trace + ([call] + next.1) == (trace + [call]) + next.1;
      trace := trace + [call];
      i := i + 1;
    }
    assert hooks[i..] == [];
    assert RunPost(hooks[i..], event, result, args, b) == (None, []);
    assert trace + [] == trace;
    failure := None;
  }

  /**
   * Calling a wrapper (a listener's callback or a command's handler) runs
   * its owner's dispatch with the wrapper's kind and function.
   */
  method CallWrapped(w: Wrapper, event: Option<PyObject>, args: Args, b: Behaviour)
    returns (outcome: Outcome<bool>, trace: seq<Call>)
    requires w.owner.Valid()
    ensures (outcome, trace) == DispatchSpec(w.owner.pre[w.kind], w.owner.post[w.kind], w.func, event, args, b)
  {
    outcome, trace := w.owner.Dispatch(w.kind, w.func, event, args, b);
  }
}
