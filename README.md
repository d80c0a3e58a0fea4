# eec: a channeled event dispatcher, modelled in Dafny

`eec.js` is a factory for two-level event dispatchers. Callers subscribe a
callback to a (channel, event) pair, query and emit on such pairs, and
unsubscribe by channel, by channel and event, or by channel, event and
callback. Each instance owns two things:

- a private single-key emitter (`ee`);
- a registry `events` that maps a channel to the records `{name, callback}` made on it.

The key composer `createEventName` turns a pair into the emitter's key
`channel|event`. It gives no key when both parts are falsy, and an absent
part prints as `undefined`.

The project models this in six modules:

- `JsValues` (`js_values.dfy`): optional strings for possibly-omitted
  arguments, JavaScript falsiness (`undefined` and `""`), and printing.
  Callbacks are identities (`nat`).
- `EventName` (`event_name.dfy`): the key composer. It proves that a key
  exists iff some part is truthy, that keys are injective when channels hold
  no `|`, and what the channel-only key `c|undefined` coincides with.
- `Emitter` (`emitter.dfy`): the contract assumed of the external emitter,
  over `map<string, seq<Callback>>`:
  - subscribe appends;
  - `off(key, cb)` drops every entry of `cb` under the key;
  - `off(key)` empties the key;
  - `off()` without a key clears everything;
  - `has` and `emit` read the key's list in subscription order.
- `Registry` (`registry.dfy`): the `events` registry and the list operations
  `off` performs on it. These are the push, `_.findWhere` as "first index
  with equal name and equal callback", `_.without` of the found record, and
  the walk that unsubscribes each record of a channel.
- `Eec` (`eec.dfy`): the four operations as steps on a `State` value, with
  lemmas for what the code and its test suite promise. `Instance`
  (`dispatcher.dfy`) holds the `Dispatcher` class. Its fields `events` and
  `subs` are updated in place by `On` and `Off`; `Off` walks a channel's
  records in a loop, `UnsubscribeAll`. Each method is proved to perform the matching `Eec`
  step.

The model follows the code, not an idealised lock-step design. The registry
and the emitter drift apart:

- `off(c)` never shrinks `events[c]`;
- `off()` never touches `events`;
- `off(c, e)` without a callback removes no record, because the match on
  `callback: undefined` is strict.

The lemmas `OffChannel`, `OffEverything` and `OffWithoutCallback` state this
drift. No lock-step invariant is claimed.

## Model

| member | source | states |
|---|---|---|
| `EventName.CreateEventName` | eec.js:19-22 | there is no key exactly when both channel and event are falsy |
| `EventName.SplitAtSeparator` | eec.js:21 | joining `a`, the separator and `b` gives the same string as for `a'` and `b'` iff `a == a'` and `b == b'`, when `a` and `a'` hold no separator |
| `EventName.KeyInjective` | eec.js:19-22 | two existing keys are equal iff their printed channels and printed events are equal, provided channels hold no separator |
| `EventName.KeyCollidesOnSeparator` | eec.js:21 | without that restriction keys collide: a separator moved from the channel into the event gives the same key |
| `EventName.ChannelOnlyKey` | eec.js:19-22 | the channel-only key of `c` equals another pair's key iff that pair has channel `c` and its event prints as "undefined" |
| `EventName.ChannelOnlyMeetsUndefinedEvent` | eec.js:21 | the channel-only key of `c` is also the key of `c` with the event literally named "undefined" |
| `Emitter.Listeners` | eec.js:58-62 | assumed emitter contract: the callbacks under a key in subscription order; none without a key or for a key never subscribed |
| `Emitter.Drop` | eec.js:50 | removing a callback from a list removes all its entries and keeps every other callback's count |
| `Emitter.DropKeepsOrder` | eec.js:50 | dropping a callback from a concatenation drops it from each part, so the callbacks that stay keep their relative order |
| `Emitter.Subscribe` | eec.js:34 | assumed emitter contract: the callback is appended under the key, other keys unchanged |
| `Emitter.Unsubscribe` | eec.js:50 | assumed emitter contract: no key clears all; key without callback empties it; key and callback drops that callback; other keys unchanged |
| `Emitter.UnsubscribeAddsNothing` | eec.js:42 | unsubscribing never adds a callback under any key |
| `Emitter.Has` | eec.js:55 | assumed emitter contract: true only for a key with subscribers; given a callback, true iff that callback is among them |
| `Registry.Records` | eec.js:31 | a registered channel reads as its list; a missing channel reads as no records |
| `Registry.Push` | eec.js:31-32 | the record is appended to the end of the channel's list, created if missing; other channels unchanged |
| `Registry.Matches` | eec.js:45 | a record matches iff both its key and its callback are strictly equal to the given ones; an absent key or callback matches nothing |
| `Registry.FindWhere` | eec.js:45 | the result is the first index whose record has the given name and callback, or none if no record matches |
| `Registry.RemoveFirst` | eec.js:44-47 | only the found record leaves the channel's list; no match leaves the registry unchanged; other channels unchanged |
| `Registry.RemoveFirstTakesOneCopy` | eec.js:45-47 | exactly one copy of the matching record is removed; equal duplicates stay |
| `Registry.UnsubscribeEach` | eec.js:40-43 | after the walk, no record's callback remains under that record's key, and keys no record names keep their subscribers |
| `Registry.UnsubscribeEachCount` | eec.js:40-43 | after the walk, a callback is gone from a key iff some record pairs it with that key; otherwise its count is unchanged |
| `Registry.PushAsWritten` | eec.js:31-32 | as written, `on` throws exactly on a channel not yet registered that is named after an inherited object member, and agrees with `Push` everywhere else |
| `Registry.PushAsWrittenThrowsOnConstructor` | eec.js:31-32 | the first `on` on channel "constructor" throws, where `Push` registers the record |
| `Eec.On` | eec.js:28-35 | `on` registers the channel, and `emit` on the same pair then reaches what it reached before plus the new callback at the end |
| `Eec.Off` | eec.js:37-51 | `off` keeps the set of registered channels and every other channel's records, never lengthens the channel's list, and afterwards `has` with the same arguments is false |
| `Eec.Has` | eec.js:53-56 | `has(c, e)` iff `emit(c, e)` reaches something; `has(c, e, cb)` iff it reaches `cb` |
| `Eec.Emit` | eec.js:58-63 | `emit` with no key reaches nothing; otherwise it reaches the callbacks under the pair's key, in order |
| `Eec.FreshIsEmpty` | eec.js:24-26 | a fresh instance answers false to every `has` and reaches nothing on every `emit` |
| `Eec.OnEffect` | eec.js:28-35 | `on` appends one record at the end of its channel's list and `cb` under its key; other channels and keys are unchanged |
| `Eec.HasAfterOn` | eec.js:53-56 | after `on(c, e, cb)`, `has(c, e)` and `has(c, e, cb)` hold, whatever the prior state |
| `Eec.HasAfterSingleOn` | eec.js:53-56 | after a single `on(c, e, cb)`, `has(c2, e2, cb2)` iff same channel, same event, and no callback or `cb` |
| `Eec.EmitAfterSingleOn` | eec.js:58-62 | after a single `on(c, e, cb)`, `emit(c2, e2)` reaches `[cb]` for the same pair and nothing otherwise |
| `Eec.HasCases` | test.js:5-63 | the query tests, for arbitrary names: present for `(c, e)` and `(c, e, cb)`; absent for `c` alone, another callback, another channel or another event |
| `Eec.EmitCases` | test.js:69-115 | the emit tests: `cb` reached once by `emit(c, e)`; not by `emit(c, e2)`, `emit(c2, e)` or `emit(c)` |
| `Eec.DuplicateOn` | eec.js:31-34 | subscribing the same triple twice gives two records and two more invocations |
| `Eec.OffWithCallback` | eec.js:44-50 | `off(c, e, cb)` removes the first matching record if one exists, else leaves the registry; drops `cb` under the key, keeps the rest |
| `Eec.OffWithoutCallback` | eec.js:45-50 | `off(c, e)` leaves the registry unchanged, empties the key, and leaves other keys unchanged |
| `Eec.OffChannelCount` | eec.js:40-50 | for one key and one callback: `off(c)` leaves it 0 times under the channel-only key or a key a record of `c` pairs it with, else unchanged |
| `Eec.OffChannel` | eec.js:40-43 | `off(c)` unsubscribes each record of `c` under its own key and empties the channel-only key; other subscriptions keep their counts; registry unchanged |
| `Eec.OffEverything` | eec.js:37-50 | `off()` leaves the registry unchanged and every later emit reaches nothing |
| `Eec.OffAsWritten` | eec.js:40-43 | as written, `off(c)` throws exactly when `c` is not registered, is named after an inherited function with parameters, and neither event nor callback is given; otherwise it is `Off` |
| `Eec.OffAsWrittenThrowsOnConstructor` | eec.js:40-42 | `off("constructor")` on a fresh instance throws as written, where the corrected `off` leaves the instance unchanged |
| `Eec.OffCases` | test.js:121-158 | after `on(c, e, cb)`: `off(c, e, cb)` and `off(c, e)` silence `cb`; `off(c, e, other)` does not |
| `Eec.Resubscribe` | test.js:218-231 | `on`, `off(c, e)`, `on` again: `emit(c, e)` reaches `cb` exactly once, from any prior state |
| `Eec.OnAt` | eec.js:28-35 | `on(c, e, cb)` appends the record to channel `c` only and `cb` under the key of `(c, e)` only, seen one channel and one key at a time |
| `Eec.OnTwiceEffect` | eec.js:28-35 | two `on`s on one channel add two records there and one `cb` under each key |
| `Eec.FourSubscriptionsState` | test.js:182-185 | the four subscriptions leave two records on `c` and one `cb` under each key of `c2` |
| `Eec.ReachedUnderKey` | eec.js:58-62 | the invocations by `emit(c, e)` are the entries under the key of `(c, e)` |
| `Eec.OffChannelSilences` | eec.js:40-43 | in any state, `off(c)` stops `emit(c, e)` reaching `cb` for every event `e` whose record with `cb` is on `c`, however many records `c` holds |
| `Eec.OffChannelThreeEvents` | test.js:160-175 | the channel-removal test with three events: after three `on`s on `c` and `off(c)`, none of the three emits reaches `cb` |
| `Eec.OffChannelKeepsOther` | test.js:177-194 | `off(c)` keeps a subscription of `cb` under a key of another channel |
| `Eec.OffChannelScenario` | test.js:177-194 | the channel-removal test: the four emits reach `cb` exactly twice, from channel `c2` only |
| `Eec.OffAllScenario` | test.js:196-214 | the remove-all test: the four emits reach nothing |
| `Instance.Dispatcher.constructor` | eec.js:24-26 | a new instance has an empty registry and an empty emitter |
| `Instance.Dispatcher.On` | eec.js:28-35 | the new state is the `on` step of the old one |
| `Instance.Dispatcher.Off` | eec.js:37-51 | the loop over the channel's records and the removal compute the `off` step of the old state |
| `Instance.Dispatcher.UnsubscribeAll` | eec.js:41-43 | the loop that unsubscribes each record of a list computes the walk `UnsubscribeEach` and leaves the registry alone |
| `Instance.Dispatcher.Has` | eec.js:53-56 | answers the `has` query on the current state and changes nothing |
| `Instance.Dispatcher.Emit` | eec.js:58-63 | returns the callbacks `emit` invokes, in order, and changes nothing |
| `Instance.AddRemoveAdd` | test.js:218-231 | a client of the class: subscribe, remove, subscribe again; emit invokes the callback once |
| `Instance.QueryAfterOn` | test.js:19-45 | a client of the class: `has` is true for its own triple, false for the channel alone and for another callback |

## Left out

- The module wrapper (eec.js:1-16, 73) for AMD, CommonJS and browser globals is module loading only.
- The emitter `ee` is not part of this model. Its behaviour is the contract in `Emitter`. In particular, `has` and `emit` without a key are assumed to find nothing. `off(key, cb)` is assumed to drop every duplicate entry of `cb`.
- Invoking callbacks, forwarding extra `emit` arguments and the `null` second argument (eec.js:59-62) are left out. `Emit` returns the list of callbacks that would be invoked.
- Re-entrant `on`/`off` from inside a callback during `emit` is left out. It depends on the emitter's iteration rules.
- Arguments other than `undefined` or strings are left out. This covers `null`, numbers and objects as channel or event names, and a missing callback to `on`.
- Instance.Dispatcher.On: requires that a key exists (channel or event truthy). What the emitter does with an `undefined` key on subscribe is not part of this model.
- Eec.On: the same requirement as `Instance.Dispatcher.On`.
- Eec.Off and Instance.Dispatcher.Off: model the corrected behaviour, where the registry is a plain dictionary and a channel never registered is missing. As written, `off(c)` with neither event nor callback throws when `c` names an inherited function that declares parameters, such as "constructor" (see Findings and `Eec.OffAsWritten`). For the other inherited names, and for the `_.findWhere` branch on any inherited name, the outcome depends on how the library version iterates non-arrays; the model treats them as missing channels.
- A registry/emitter lock-step invariant is not proved, because the code does not keep one. The model follows the code, where the intended design says that `off()` and `off(c)` would also clear the registry.

## Findings

| source | as written | input that shows it | evidently intended | confidence | as-written member | corrected member |
|---|---|---|---|---|---|---|
| eec.js:26, 31-32 | `events` is a plain object, so its lookup with a fallback to an empty list returns an inherited member of `Object.prototype` for channels like "constructor", and `.push` on it throws a TypeError | `on("constructor", "event", cb)` on a fresh instance | a channel never used before starts an empty list | high; not executed | `Registry.PushAsWritten` | `Registry.Push` |
| eec.js:26, 40-42 | for a channel named after an inherited function with parameters, `events[channel]` is truthy, `_.each` walks it as an array of `undefined` because its `length` is positive, and `e.name` on `undefined` throws a TypeError | `off("constructor")` on a fresh instance | removing a channel never used is a no-op | high; not executed | `Eec.OffAsWritten` | `Eec.Off` |
