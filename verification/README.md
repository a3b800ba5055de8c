# disco plugin core and user string logic, in Dafny

This project models two parts of the disco Discord library.

**The plugin registry and dispatch pipeline** (`disco/bot/plugin.py`):

- The six decorators (`listen`, `command`, `pre_command`, `post_command`,
  `pre_listener`, `post_listener`) append an intent record to a method's
  `meta` list. The method is a `PluginDeco.Function` object whose `meta`
  field the decorator updates in place.
- The `Plugin` constructor scans the plugin's methods and routes each record
  by its `type` string:
  - a listener record goes to `register_listener`;
  - a command record goes to `register_command`;
  - a `pre_X`/`post_X` record goes to `register_trigger`.
- The plugin is a class. Its fields are the listener handle list, the
  command table and the two hook tables, and its methods update them.
- Each registration method is proved to equal one step of a pure
  specification, `Plugins.Register`. The constructor is proved to equal
  `Plugins.RegisterAll` over the registrations the scan produces. Lemmas
  about those functions give the properties:
  - last command name wins;
  - hooks are appended in order and duplicates are kept;
  - listener handles are fresh;
  - one registration per record.
- `_dispatch` is a method with the source's two loops. It is proved to equal
  `Dispatching.DispatchSpec`, a pure function that gives the outcome and the
  trace of calls made: pre-hooks, then the handler, then post-hooks. The
  dispatch lemmas are proved about that function.
- `execute` is the command adapter, `Plugins.Execute`.

**The user string logic** (`disco/types/user.py`):

- avatar URLs (`get_avatar_url`, `avatar_url`);
- the stock avatar picked from the discriminator (`default_avatar`);
- the mention tag (`mention`);
- the `name#0001` display form (`__str__`);
- the single-bit `UserFlags` table.

The few Python text builtins these rely on are modelled in `PyText`:

- `'{}'.format` of an integer;
- `int()` of a string;
- `str.startswith`;
- `str.zfill`.

Python values the core only passes along (events, handler results, command
arguments) are the opaque `PluginDeco.PyObject`. Python `None` is
`Option.None`. An exception is an `Outcome` that `Raised` an `Exception`.
What the plugin's hooks and handlers do is a `Dispatching.Behaviour`, a
parameter made of three total functions.

A pre-hook that returns `None` does **not** stop the later pre-hooks. The
loop at `disco/bot/plugin.py:135-136` runs every pre-hook unless one raises.
Each hook receives what the one before it returned, `None` included. The
`None` test comes only after the loop (line 138).
`Dispatching.NoneIsPassedOn` states this behaviour.

Files:

- `wrappers.dfy`: `Option` and `Result`.
- `pytext.dfy`: the Python text builtins listed above.
- `users.dfy`: the user model.
- `plugin_deco.dfy`: the decorators and the routing of records by type string.
- `dispatching.dfy`: the specification of `_dispatch`.
- `plugins.dfy`: the event bus, the plugin class, the registration
  specification and the command adapter.

## Model

| member | source | states |
|---|---|---|
| `PluginDeco.AddMeta` | disco/bot/plugin.py:14-22 | the decorator creates `meta` when absent, appends exactly the one record at the end keeping the earlier ones, and returns the same function object |
| `PluginDeco.Listen` | disco/bot/plugin.py:24-32 | `listen(name)` builds a record of type `listener` carrying that event name |
| `PluginDeco.Command` | disco/bot/plugin.py:34-43 | `command(*args, **kwargs)` builds a record of type `command` keeping both argument lists |
| `PluginDeco.PreCommand` | disco/bot/plugin.py:45-52 | the record's type is `pre_command` |
| `PluginDeco.PostCommand` | disco/bot/plugin.py:54-61 | the record's type is `post_command` |
| `PluginDeco.PreListener` | disco/bot/plugin.py:63-70 | the record's type is `pre_listener` |
| `PluginDeco.PostListener` | disco/bot/plugin.py:72-79 | the record's type is `post_listener` |
| `PluginDeco.SplitOnce` | disco/bot/plugin.py:115 | `split('_', 1)` yields a head with no underscore and a tail that rebuild the text around the first underscore |
| `PluginDeco.RouteOfTypeName` | disco/bot/plugin.py:110-116 | the `if`/`elif` chain on the type string sends every decorator record to its own registration; a trigger goes to the `when` and kind it was made with; any other type is skipped |
| `PluginDeco.KindOf` | disco/bot/plugin.py:132 | the hook tables have the keys `command` and `listener` and no other; a key reads back as the kind it names |
| `PluginDeco.WhenOf` | disco/bot/plugin.py:132 | `'_' + when` names a hook table exactly for `pre` and `post` |
| `PluginDeco.NamesRoundTrip` | disco/bot/plugin.py:115-116 | the `when` and kind written into a trigger's type string read back as the same table and kind |
| `Plugins.RegistrationFollowsTypeString` | disco/bot/plugin.py:110-116 | the registration a record makes is decided by its type string: skipped types register nothing, and any record of type `pre_X`/`post_X` for a table and a kind registers that trigger |
| `Plugins.PreCommandRecordEitherWay` | disco/bot/plugin.py:114-116 | a `pre_command` record registers the command pre-hook whether or not the decorator built it |
| `Plugins.OneRegistrationPerRecord` | disco/bot/plugin.py:108-116 | a method whose records all come from the decorators makes exactly one registration call per record, in record order |
| `Plugins.Plugin.constructor` | disco/bot/plugin.py:94-116 | a new plugin starts from empty tables with both hook keys, and its state is the registrations of the scan applied in order |
| `Plugins.Plugin.ScanMethods` | disco/bot/plugin.py:107-116 | the scan loop applies each method's registrations, method by method, in enumeration order |
| `Plugins.Plugin.RegisterRecords` | disco/bot/plugin.py:108-116 | one method's records are applied in list order; a method without `meta` registers nothing |
| `Plugins.Plugin.RegisterRecord` | disco/bot/plugin.py:110-116 | one record makes the listener, command or trigger registration its type asks for, a trigger also when the record is known only by its type string; a record of any other type changes nothing |
| `Plugins.EmptyHooks` | disco/bot/plugin.py:104-105 | each hook table starts with the keys `command` and `listener`, both empty |
| `Plugins.Plugin.RegisterTrigger` | disco/bot/plugin.py:128-132 | `register_trigger` changes the state exactly as one trigger registration in the specification |
| `Plugins.Plugin.RegisterListener` | disco/bot/plugin.py:148-156 | `register_listener` subscribes a listener-kind wrapper on the bus and appends the returned handle, exactly as one listener registration |
| `Plugins.Plugin.RegisterCommand` | disco/bot/plugin.py:158-167 | `register_command` binds a command-kind wrapper under the function's name, exactly as one command registration |
| `Plugins.EventBus.On` | disco/bot/plugin.py:156 | `events.on` appends the subscription and returns a handle no earlier subscription has |
| `Plugins.RegisterFrame` | disco/bot/plugin.py:128-167 | a trigger appends its function to one hook list only; a command rebinds one name only; a listener adds one handle and one subscription only; nothing else changes |
| `Plugins.HooksInRegistrationOrder` | disco/bot/plugin.py:128-132 | each hook list is its old contents followed by the hooks registered for it, in registration order, duplicates kept |
| `Plugins.CommandsLastWins` | disco/bot/plugin.py:166-167 | after a run of registrations, a name is bound by the last command registered under it; a name never registered keeps its old entry or absence |
| `Plugins.ListenersSubscribed` | disco/bot/plugin.py:155-156 | listener registrations append their subscriptions to the bus in order; the plugin keeps the earlier handles and gains one fresh handle per subscription |
| `Plugins.Plugin.Dispatch` | disco/bot/plugin.py:134-146 | `_dispatch` returns the outcome and makes the calls of the dispatch specification for the hook lists of its kind |
| `Plugins.RunPreHooks` | disco/bot/plugin.py:135-136 | the pre-hook loop makes the calls and threads the event exactly as the pre-hook chain specification |
| `Plugins.RunPostHooks` | disco/bot/plugin.py:143-144 | the post-hook loop makes the calls of the post-hook chain specification and drops their return values |
| `Plugins.CallWrapped` | disco/bot/plugin.py:155 | calling a `functools.partial` wrapper runs its owner's dispatch with the wrapper's kind and function |
| `Dispatching.RunPre` | disco/bot/plugin.py:135-136 | the chain makes only pre-hook calls, at most one per hook; if none raises, every hook ran; a chain that raises has made at least one call |
| `Dispatching.PreChainCalls` | disco/bot/plugin.py:135-136 | the pre-hooks are called in list order |
| `Dispatching.RunPost` | disco/bot/plugin.py:143-144 | the chain makes at most one call per post-hook; if none raises, every hook ran; a chain that ends with an exception has made at least one call |
| `Dispatching.PostChainCalls` | disco/bot/plugin.py:143-144 | the post-hooks are called in list order, each with the same event and the handler's result |
| `Dispatching.PreChainThreadsEvent` | disco/bot/plugin.py:135-136 | the first pre-hook gets the dispatched event; each later one gets what the previous returned; the chain's result is the last hook's return value; a raising chain raises the last called hook's own exception |
| `Dispatching.PostChainOutcome` | disco/bot/plugin.py:143-144 | every post-hook before the last one called returned; the chain's exception is the one the last called hook raised; the chain ends without an exception exactly when every post-hook returns |
| `Dispatching.NoneIsPassedOn` | disco/bot/plugin.py:135-139 | a pre-hook that ran and returned `None` does not stop the chain: the next pre-hook, if any, is called and receives `None`, even when a later hook raises |
| `Dispatching.DispatchVetoed` | disco/bot/plugin.py:138-139 | when the final event is `None` the result is False; only pre-hooks ran, each of them once, and neither the handler nor a post-hook ran |
| `Dispatching.DispatchCompleted` | disco/bot/plugin.py:141-146 | otherwise the handler runs once on the transformed event, every post-hook runs in order with its result, and the result is True |
| `Dispatching.PreHookRaises` | disco/bot/plugin.py:135-136 | a pre-hook that raises: the dispatch raises that exception, raised by the last pre-hook called, and the trace holds only pre-hook calls, so neither the handler nor any post-hook runs |
| `Dispatching.PostHookRaises` | disco/bot/plugin.py:135-146 | a post-hook that raises after the handler returned: the dispatch raises that exception; the trace is the pre-hook calls, the handler call and the post-hook calls up to the raising one, which is last; every post-hook before it returned |
| `Dispatching.HandlerRaises` | disco/bot/plugin.py:141 | a handler that raises propagates its exception and no post-hook runs |
| `Dispatching.DispatchCallsOnlyItsHooks` | disco/bot/plugin.py:134-146 | a dispatch calls only its own handler and the hooks of its own kind |
| `Plugins.Execute` | disco/bot/plugin.py:118-126 | `execute` returns the command's result unchanged; a `CommandError` becomes one reply with its message and False; any other exception propagates |
| `Plugins.ExecuteContainsCommandErrors` | disco/bot/plugin.py:118-126 | `execute` never raises a `CommandError`; it replies at most once, exactly when the command raised one |
| `Plugins.CommandErrorFromHandler` | disco/bot/plugin.py:122-126 | a command handler raising `CommandError(m)` skips the post-hooks, and `execute` replies `m` once and returns False |
| `Users.AvatarValue` | disco/types/user.py:8-14 | the stock avatars have values 0 to 4 |
| `Users.AvatarOfValue` | disco/types/user.py:8-14 | looking a stock avatar up by value gives the avatar with that value |
| `Users.DefaultAvatarOf` | disco/types/user.py:66-68 | `default_avatar` succeeds exactly when `int(discriminator)` does; the avatar's value is that integer mod 5; otherwise it raises ValueError |
| `Users.DefaultAvatarOfPaddedNumber` | disco/types/user.py:66-68 | a discriminator written as a zero-padded decimal `n` picks stock avatar `n % 5` |
| `Users.GetAvatarUrl` | disco/types/user.py:56-64 | `get_avatar_url` fails exactly when the user has no avatar and the discriminator is not an integer |
| `Users.NoAvatarUrl` | disco/types/user.py:57-58 | with no avatar the URL is `embed/avatars/{n}.png` with `n = int(discriminator) % 5`, whatever `fmt` and `size` are |
| `Users.ExplicitFormatUrl` | disco/types/user.py:59-60 | with an avatar and a `fmt`, the URL is the avatar file with extension `fmt`, animated hash or not |
| `Users.AnimatedIffGif` | disco/types/user.py:61-64 | with an avatar and no `fmt`, the URL is the `gif` one exactly when the hash starts with `a_`, and the `webp` one exactly when it does not |
| `Users.AvatarFileUrlSize` | disco/types/user.py:60-64 | every avatar-file URL ends in `?size=` followed by the size, which reads back as the size |
| `Users.AvatarUrl` | disco/types/user.py:70-72 | `avatar_url` is the `gif` or `webp` URL at size 1024 for an avatar; without one it is the stock URL, the same for every `fmt` and `size` |
| `Users.Mention` | disco/types/user.py:74-76 | the mention starts with `<@` and ends with `>` |
| `Users.MentionRecoversId` | disco/types/user.py:74-76 | the text between `<@` and `>` reads back as the user id |
| `Users.Str` | disco/types/user.py:81-82 | the display form is at least the user name plus five characters long |
| `Users.StrShowsDiscriminator` | disco/types/user.py:81-82 | the display form is the user name, `#`, and the discriminator: left-padded with `0`s to four characters after any leading sign, and never cut short; the padded text denotes the same number and picks the same stock avatar |
| `Users.ShiftInverse` | disco/types/user.py:22-35 | every flag sits at its own bit position |
| `Users.FlagIsSingleBit` | disco/types/user.py:22-35 | every flag value has exactly one bit set, at its shift |
| `Users.FlagsDisjoint` | disco/types/user.py:22-35 | two different flags share no bit and have different values |
| `PyText.IntToStringRoundTrip` | disco/types/user.py:68 | `int()` of the decimal text written by `'{}'.format` gives back the integer |
| `PyText.ZFill` | disco/types/user.py:82 | `zfill(width)` pads to exactly `width` characters with `0`s on the left, after a leading sign, which stays first; the text follows the zeros unchanged; longer text is left unchanged |
| `PyText.ZFillKeepsValue` | disco/types/user.py:82 | zero-padding never changes the integer the text denotes |

## Left out

- `Plugin.destroy` (`disco/bot/plugin.py:169-173`) is not modelled. It reads
  `self._events`, which nothing assigns; the handles are kept in
  `self.listeners`. It also applies `map` lazily. Either way it revokes no
  subscription, so it has no effect on the state.
- `Plugin.load` and `Plugin.unload` are not modelled: both are no-ops.
- `inspect.getmembers` is not modelled. The constructor takes the plugin's
  methods as a sequence in enumeration order (Python enumerates them by name).
- `bot`, `client`, `state` and `config` are not modelled. The constructor
  copies them into fields that the core never reads again, apart from
  `bot.client.events`, which is the `EventBus` parameter.
- `LoggingClass` is not modelled.
- `Command` and `CommandError` are not modelled: `disco.bot.command` is not
  part of this model. A command entry records its owner, its wrapped
  `(kind, function)` pair and its arguments.
- `Plugins.Execute` takes the outcome of `event.command.execute(event)` as
  its input. This assumes the command runs its wrapped dispatch. A failure of
  `event.msg.reply` is not modelled.
- Hand-made records that Python would reject are not modelled. Each such
  record registers nothing in the model:
  - a `pre_X`/`post_X` record whose `X` is not `command` or `listener`
    (a `KeyError` in `register_trigger`);
  - a `listener` record without `event_name`;
  - a `command` record without `args`/`kwargs`.
  A record held as `OtherMeta` with a valid `pre_X`/`post_X` type registers
  its trigger, exactly like the decorator's record.
- Hooks and handlers are total functions of their inputs, so one dispatch
  cannot change what a later call does. Calls back into the plugin from a hook
  are not modelled.
- `PyText.ParseInt` accepts an optional sign followed by ASCII digits. Unlike
  Python's `int()`, it rejects surrounding whitespace, underscores and
  non-ASCII digits.
- `username` and `discriminator` that are `None` are not modelled. Both are
  text, and `fmt` is text when given.
- `User.open_dm` is not modelled: it is a network call.
- `__repr__` is not modelled: it is only debug formatting.
- `Timestamps` is not modelled: float division and `datetime`.
- The `SlottedModel`/`Field` declarations are not modelled; neither is the
  `BitsetMap`/`BitsetValue` machinery nor `holster.enum`. `UserFlags` is
  modelled as its table of bit positions.
