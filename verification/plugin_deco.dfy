/**
 * The metadata tagger: the records the six decorators attach to a plugin
 * method, the method objects that carry them, and how the plugin
 * constructor classifies a record by its `type` string.
 */
module PluginDeco {
  import opened Wrappers
  import opened PyText

  /** The two dispatch kinds, the keys `'command'` and `'listener'`. */
  datatype Kind = CommandKind | ListenerKind

  /** Whether a hook runs before (`pre`) or after (`post`) the handler. */
  datatype When = Pre | Post

  /** An opaque Python object, known only by its identity. */
  datatype PyObject = PyObject(id: nat)

  /**
   * One intent record in a method's `meta` list. The first three are what
   * the decorators build; `OtherMeta` is any record with another `type`.
   */
  datatype Meta =
    | ListenerMeta(eventName: string)
    | CommandMeta(args: seq<PyObject>, kwargs: map<string, PyObject>)
    | TriggerMeta(when: When, kind: Kind)
    | OtherMeta(typeName: string)

  function KindName(k: Kind): string {
    match k
    case CommandKind => "command"
    case ListenerKind => "listener"
  }

  function WhenName(w: When): string {
    match w
    case Pre => "pre"
    case Post => "post"
  }

  /** The record's `'type'` entry. */
  function TypeName(m: Meta): string {
    match m
    case ListenerMeta(_) => "listener"
    case CommandMeta(_, _) => "command"
    case TriggerMeta(w, k) => WhenName(w) + "_" + KindName(k)
    case OtherMeta(t) => t
  }

  /** `listen(event_name)`: a listener record for that event. */
  function Listen(eventName: string): (m: Meta)
    ensures TypeName(m) == "listener" && m.ListenerMeta? && m.eventName == eventName
  {
    ListenerMeta(eventName)
  }

  /** `command(*args, **kwargs)`: a command record keeping the arguments for later. */
  function Command(args: seq<PyObject>, kwargs: map<string, PyObject>): (m: Meta)
    ensures TypeName(m) == "command" && m.CommandMeta? && m.args == args && m.kwargs == kwargs
  {
    CommandMeta(args, kwargs)
  }

  function PreCommand(): (m: Meta)
    ensures TypeName(m) == "pre_command"
  {
    TriggerMeta(Pre, CommandKind)
  }

  function PostCommand(): (m: Meta)
    ensures TypeName(m) == "post_command"
  {
    TriggerMeta(Post, CommandKind)
  }

  function PreListener(): (m: Meta)
    ensures TypeName(m) == "pre_listener"
  {
    TriggerMeta(Pre, ListenerKind)
  }

  function PostListener(): (m: Meta)
    ensures TypeName(m) == "post_listener"
  {
    TriggerMeta(Post, ListenerKind)
  }

  /**
   * A plugin method (function object). `name` is its `__name__`; `meta`
   * is `None` while the function has no `meta` attribute.
   */
  class Function {
    const name: string
    var meta: Option<seq<Meta>>

    constructor (name: string)
      ensures this.name == name && meta == None
    {
      this.name := name;
      meta := None;
    }
  }

  /** The records of a function; a missing `meta` attribute reads as none. */
  function MetaList(meta: Option<seq<Meta>>): seq<Meta> {
    if meta.Some? then meta.value else []
  }

  /**
   * The decorator built by `add_meta_deco(meta)`, applied to `f`: creates
   * the list if absent, appends the record and returns `f` itself.
   */
  method AddMeta(meta: Meta, f: Function) returns (g: Function)
    modifies f
    ensures g == f
    ensures f.meta == Some(MetaList(old(f.meta)) + [meta])
  {
    if f.meta == None {
      f.meta := Some([]);
    }
    f.meta := Some(f.meta.value + [meta]);
    g := f;
  }

  /** Where the constructor's `if`/`elif` chain sends a record of the given type. */
  datatype Route = ToListener | ToCommand | ToTrigger(when: string, typ: string) | Ignored

  /** The position of the first `c` in `s`. */
  function IndexOf(s: string, c: char): (i: nat)
    requires c in s
    ensures i < |s| && s[i] == c && c !in s[..i]
  {
    if s[0] == c then 0 else 1 + IndexOf(s[1..], c)
  }

  /** `t.split('_', 1)` for a `t` known to hold an underscore. */
  function SplitOnce(t: string): (r: (string, string))
    requires '_' in t
    ensures r.0 + "_" + r.1 == t && '_' !in r.0
  {
    var i := IndexOf(t, '_');
    assert t == t[..i] + "_" + t[i + 1..];
    (t[..i], t[i + 1..])
  }

  /** The classification by the `type` string, tested in the source's order. */
  function RouteOf(t: string): Route {
    if t == "listener" then ToListener
    else if t == "command" then ToCommand
    else if StartsWith(t, "pre_") || StartsWith(t, "post_") then
      assert t[|t[..4]| - 1] == '_' || t[|t[..5]| - 1] == '_';
      var parts := SplitOnce(t);
      ToTrigger(parts.0, parts.1)
    else Ignored
  }

  /** The hook-table key named by `typ`; any other name is not a key (`KeyError`). */
  function KindOf(typ: string): (k: Option<Kind>)
    ensures k.Some? <==> typ == "command" || typ == "listener"
    ensures k.Some? ==> KindName(k.value) == typ
  {
    if typ == "command" then Some(CommandKind)
    else if typ == "listener" then Some(ListenerKind)
    else None
  }

  /** The hook table named by `when` (`getattr(self, '_' + when)`). */
  function WhenOf(when: string): (w: Option<When>)
    ensures w.Some? <==> when == "pre" || when == "post"
    ensures w.Some? ==> WhenName(w.value) == when
  {
    if when == "pre" then Some(Pre)
    else if when == "post" then Some(Post)
    else None
  }

  /** Reading a name back gives the kind or the table it names. */
  lemma NamesRoundTrip(k: Kind, w: When)
    ensures KindOf(KindName(k)) == Some(k) && WhenOf(WhenName(w)) == Some(w)
  {
  }

  /** A record the constructor can process: one whose `type` string is one of the decorators' or is ignored. */
  predicate WellFormed(m: Meta) {
    m.OtherMeta? ==> RouteOf(m.typeName) == Ignored
  }

  lemma SplitAt(t: string, w: string, k: string)
    requires t == w + "_" + k && '_' !in w
    ensures SplitOnce(t) == (w, k)
  {
    var r := SplitOnce(t);
    assert w == t[..|w|] && t[|w|] == '_';
    assert r.0 == w;
    assert r.1 == t[|w| + 1..];
  }

  /**
   * Routing a record by its `type` string reaches the registration its
   * constructor names: a listener, a command, or the trigger with the same
   * `when` and kind, split at the first underscore; other records are skipped.
   */
  lemma RouteOfTypeName(m: Meta)
    requires WellFormed(m)
    ensures RouteOf(TypeName(m)) == match m
      case ListenerMeta(_) => ToListener
      case CommandMeta(_, _) => ToCommand
      case TriggerMeta(w, k) => ToTrigger(WhenName(w), KindName(k))
      case OtherMeta(_) => Ignored
  {
    if m.TriggerMeta? {
      var t := TypeName(m);
      SplitAt(t, WhenName(m.when), KindName(m.kind));
      assert t != "listener" && t != "command" by {
        assert t[0] == 'p';
      }
      if m.when == Pre {
        assert t[..4] == "pre_";
      } else {
        assert t[..5] == "post_";
      }
    }
  }
}
