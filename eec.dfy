/** The channeled dispatcher as a function of its state: what `on`, `off`,
    `has` and `emit` do to, or read from, the registry `events` and the
    emitter's subscribers. The `Dispatcher` class runs these steps in place;
    the lemmas here state what the source promises about them. */
module Eec {
  import opened JsValues
  import opened EventName
  import opened Registry
  import Emitter

  /** Everything one dispatcher instance owns: its registry and its emitter. */
  datatype State = State(events: Events, subs: Emitter.Subscribers)

  /** A freshly constructed instance: empty registry, fresh emitter. */
  const Fresh: State := State(map[], map[])

  /** `on(channel, event, callback)`. */
  function On(s: State, channel: Part, event: Part, callback: Callback): (r: State)
    requires CreateEventName(channel, event).Some?
    ensures r.events.Keys == s.events.Keys + {Show(channel)}
    ensures Emit(r, channel, event) == Emit(s, channel, event) + [callback]
  {
    var name := CreateEventName(channel, event).value;
    State(Push(s.events, Show(channel), Record(name, callback)),
          Emitter.Subscribe(s.subs, name, callback))
  }

  /** `off(channel, event, callback)`: with a registered channel and neither
      event nor callback, every record of the channel is unsubscribed under
      its own key; otherwise, with a registered channel, the first record
      matching key and callback leaves the registry. In every case the
      emitter is then told `off(key, callback)`. */
  function Off(s: State, channel: Part, event: Part, callback: Option<Callback>): (r: State)
    ensures r.events.Keys == s.events.Keys
    ensures forall ch :: ch != Show(channel) ==> Records(r.events, ch) == Records(s.events, ch)
    ensures |Records(r.events, Show(channel))| <= |Records(s.events, Show(channel))|
    ensures !Has(r, channel, event, callback)
  {
    var name := CreateEventName(channel, event);
    var ch := Show(channel);
    var wholeChannel := ch in s.events && Falsy(event) && callback.None?;
    var subs := if wholeChannel then UnsubscribeEach(s.subs, s.events[ch]) else s.subs;
    var events := if ch in s.events && !wholeChannel then RemoveFirst(s.events, ch, name, callback) else s.events;
    State(events, Emitter.Unsubscribe(subs, name, callback))
  }

  /** `has(channel, event, callback)`: it asks about exactly what `emit`
      would reach; without a callback, whether anything is reached, with
      one, whether that one is. */
  function Has(s: State, channel: Part, event: Part, callback: Option<Callback>): (r: bool)
    ensures callback.None? ==> (r <==> Emit(s, channel, event) != [])
    ensures callback.Some? ==> (r <==> callback.value in Emit(s, channel, event))
  {
    Emitter.Has(s.subs, CreateEventName(channel, event), callback)
  }

  /** `emit(channel, event)`: the callbacks the emitter invokes, in order. */
  function Emit(s: State, channel: Part, event: Part): (r: seq<Callback>)
    ensures CreateEventName(channel, event).None? ==> r == []
    ensures CreateEventName(channel, event).Some? ==> r == ListenersOf(s, CreateEventName(channel, event).value)
  {
    Emitter.Listeners(s.subs, CreateEventName(channel, event))
  }

  /** How many times `emit(channel, event)` invokes `cb`. */
  function Reached(s: State, channel: Part, event: Part, cb: Callback): nat {
    multiset(Emit(s, channel, event))[cb]
  }

  /** The callbacks subscribed under a raw key. */
  function ListenersOf(s: State, key: string): seq<Callback> {
    Emitter.Listeners(s.subs, Some(key))
  }

  // ---------------------------------------------------------------- has / emit

  /** A fresh instance has nothing and reaches nothing. */
  lemma FreshIsEmpty(channel: Part, event: Part, callback: Option<Callback>)
    ensures !Has(Fresh, channel, event, callback)
    ensures Emit(Fresh, channel, event) == []
  {
  }

  // ---------------------------------------------------------------- on

  /** `on` appends one record to the end of its channel's list (creating the
      list if missing), touches no other channel, appends the callback under
      the composed key and leaves every other key alone. Duplicates are kept. */
  lemma OnEffect(s: State, channel: Part, event: Part, callback: Callback)
    requires CreateEventName(channel, event).Some?
    ensures var r, name := On(s, channel, event, callback), CreateEventName(channel, event).value;
            && Records(r.events, Show(channel)) == Records(s.events, Show(channel)) + [Record(name, callback)]
            && (forall ch :: ch != Show(channel) ==> Records(r.events, ch) == Records(s.events, ch))
            && Emit(r, channel, event) == Emit(s, channel, event) + [callback]
            && (forall key :: key != name ==> ListenersOf(r, key) == ListenersOf(s, key))
  {
  }

  /** After `on(channel, event, callback)`, both `has(channel, event)` and
      `has(channel, event, callback)` hold, whatever came before. */
  lemma HasAfterOn(s: State, channel: Part, event: Part, callback: Callback)
    requires CreateEventName(channel, event).Some?
    ensures Has(On(s, channel, event, callback), channel, event, None)
    ensures Has(On(s, channel, event, callback), channel, event, Some(callback))
  {
    OnEffect(s, channel, event, callback);
  }

  /** On an instance with the single subscription `on(c, e, cb)`, a query
      `has(c2, e2, cb2)` holds exactly when it names the same channel and
      event and either no callback or `cb`. */
  lemma {:induction false} HasAfterSingleOn(c: string, e: string, cb: Callback, c2: Part, e2: Part, cb2: Option<Callback>)
    requires c != "" && BarFree(c) && BarFree(Show(c2))
    requires CreateEventName(c2, e2).Some?
    ensures Has(On(Fresh, Some(c), Some(e), cb), c2, e2, cb2)
            <==> Show(c2) == c && Show(e2) == e && (cb2.None? || cb2 == Some(cb))
  {
    KeyInjective(Some(c), Some(e), c2, e2);
  }

  /** On an instance with the single subscription `on(c, e, cb)`, an
      `emit(c2, e2)` invokes `cb` once when it names the same channel and
      event, and invokes nothing otherwise. */
  lemma {:induction false} EmitAfterSingleOn(c: string, e: string, cb: Callback, c2: Part, e2: Part)
    requires c != "" && BarFree(c) && BarFree(Show(c2))
    requires CreateEventName(c2, e2).Some?
    ensures Emit(On(Fresh, Some(c), Some(e), cb), c2, e2)
            == if Show(c2) == c && Show(e2) == e then [cb] else []
  {
    KeyInjective(Some(c), Some(e), c2, e2);
  }

  /** The query cases of the test suite, for any names: after
      `on(c, e, cb)`, `has(c, e)` and `has(c, e, cb)` hold, while `has(c)`,
      `has(c, e, cb2)`, `has(c2, e, cb)` and `has(c, e2, cb)` do not. The
      channel-only query is false only because the event is not literally
      named "undefined". */
  lemma HasCases(c: string, e: string, cb: Callback, c2: string, e2: string, cb2: Callback)
    requires c != "" && c2 != "" && BarFree(c) && BarFree(c2)
    requires e != "undefined" && c2 != c && e2 != e && cb2 != cb
    ensures !Has(Fresh, Some(c), Some(e), None)
    ensures var s := On(Fresh, Some(c), Some(e), cb);
            && Has(s, Some(c), Some(e), None)
            && Has(s, Some(c), Some(e), Some(cb))
            && !Has(s, Some(c), None, None)
            && !Has(s, Some(c), Some(e), Some(cb2))
            && !Has(s, Some(c2), Some(e), Some(cb))
            && !Has(s, Some(c), Some(e2), Some(cb))
  {
    HasAfterSingleOn(c, e, cb, Some(c), None, None);
    HasAfterSingleOn(c, e, cb, Some(c), Some(e), Some(cb2));
    HasAfterSingleOn(c, e, cb, Some(c2), Some(e), Some(cb));
    HasAfterSingleOn(c, e, cb, Some(c), Some(e2), Some(cb));
    HasAfterOn(Fresh, Some(c), Some(e), cb);
  }

  /** The emit cases of the test suite: after `on(c, e, cb)`, `emit(c, e)`
      invokes `cb` exactly once; `emit(c, e2)`, `emit(c2, e)` and `emit(c)`
      invoke nothing. */
  lemma EmitCases(c: string, e: string, cb: Callback, c2: string, e2: string)
    requires c != "" && c2 != "" && BarFree(c) && BarFree(c2)
    requires e != "undefined" && c2 != c && e2 != e
    ensures var s := On(Fresh, Some(c), Some(e), cb);
            && Emit(s, Some(c), Some(e)) == [cb]
            && Emit(s, Some(c), Some(e2)) == []
            && Emit(s, Some(c2), Some(e)) == []
            && Emit(s, Some(c), None) == []
  {
    EmitAfterSingleOn(c, e, cb, Some(c), Some(e));
    EmitAfterSingleOn(c, e, cb, Some(c), Some(e2));
    EmitAfterSingleOn(c, e, cb, Some(c2), Some(e));
    EmitAfterSingleOn(c, e, cb, Some(c), None);
  }

  /** Registering the same triple twice is not collapsed: `emit` invokes the
      callback twice and the channel holds two equal records. */
  lemma DuplicateOn(s: State, channel: Part, event: Part, callback: Callback)
    requires CreateEventName(channel, event).Some?
    ensures var r := On(On(s, channel, event, callback), channel, event, callback);
            && Reached(r, channel, event, callback) == Reached(s, channel, event, callback) + 2
            && |Records(r.events, Show(channel))| == |Records(s.events, Show(channel))| + 2
  {
    var s1 := On(s, channel, event, callback);
    OnEffect(s, channel, event, callback);
    OnEffect(s1, channel, event, callback);
  }

  // ---------------------------------------------------------------- off

  /** `off(channel, event, cb)`: if the channel's list holds the record
      `{key, cb}`, its first copy is removed and nothing else in the
      registry changes; otherwise the registry is unchanged. Under the key
      the emitter loses every entry of `cb` and keeps the other callbacks;
      other keys are untouched. */
  lemma OffWithCallback(s: State, channel: Part, event: Part, cb: Callback)
    requires CreateEventName(channel, event).Some?
    ensures var r, name, ch := Off(s, channel, event, Some(cb)), CreateEventName(channel, event).value, Show(channel);
            var recs := Records(s.events, ch);
            && (forall ch2 :: ch2 != ch ==> Records(r.events, ch2) == Records(s.events, ch2))
            && (Record(name, cb) !in recs ==> r.events == s.events)
            && (Record(name, cb) in recs ==>
                  exists i :: 0 <= i < |recs| && recs[i] == Record(name, cb) && Record(name, cb) !in recs[..i]
                              && Records(r.events, ch) == recs[..i] + recs[i + 1..])
            && Emit(r, channel, event) == Emitter.Drop(Emit(s, channel, event), cb)
            && (forall key :: key != name ==> ListenersOf(r, key) == ListenersOf(s, key))
  {
    var r, name, ch := Off(s, channel, event, Some(cb)), CreateEventName(channel, event).value, Show(channel);
    var recs := Records(s.events, ch);
    if ch in s.events {
      var found := FindWhere(recs, Some(name), Some(cb));
      if found.Some? {
        var i := found.value;
        assert recs[i] == Record(name, cb);
        assert Record(name, cb) !in recs[..i];
      } else {
        assert Record(name, cb) !in recs;
      }
    }
  }

  /** `off(channel, event)` with a real event and no callback: the
      registry's match on `callback: undefined` finds nothing, so the
      registry is unchanged, while the emitter forgets every callback under
      the key. Other keys are untouched. */
  lemma OffWithoutCallback(s: State, channel: Part, event: Part)
    requires !Falsy(event)
    ensures var r, name := Off(s, channel, event, None), CreateEventName(channel, event).value;
            && r.events == s.events
            && Emit(r, channel, event) == []
            && (forall key :: key != name ==> ListenersOf(r, key) == ListenersOf(s, key))
  {
  }

  /** `off(channel)` at one key and one callback: the callback is gone from
      the channel-only key and from every key a record of the channel pairs
      it with, and keeps its count everywhere else. */
  lemma OffChannelCount(s: State, channel: Part, event: Part, key: string, x: Callback)
    requires Falsy(event) && !Falsy(channel)
    ensures multiset(ListenersOf(Off(s, channel, event, None), key))[x]
            == if key == CreateEventName(channel, event).value || Record(key, x) in Records(s.events, Show(channel)) then 0
               else multiset(ListenersOf(s, key))[x]
  {
    var recs := Records(s.events, Show(channel));
    UnsubscribeEachCount(s.subs, recs, key, x);
  }

  /** `off(channel)`: every record of the channel is unsubscribed under its
      own key, and the channel-only key `channel|undefined` is emptied; a
      callback survives under any other key exactly as often as before. The
      registry, the channel's own list included, is unchanged. */
  lemma OffChannel(s: State, channel: Part, event: Part)
    requires Falsy(event) && !Falsy(channel)
    ensures var r, name := Off(s, channel, event, None), CreateEventName(channel, event).value;
            var recs := Records(s.events, Show(channel));
            && r.events == s.events
            && forall key, x :: multiset(ListenersOf(r, key))[x]
                                 == if key == name || Record(key, x) in recs then 0
                                    else multiset(ListenersOf(s, key))[x]
  {
    forall key, x
      ensures multiset(ListenersOf(Off(s, channel, event, None), key))[x]
              == if key == CreateEventName(channel, event).value || Record(key, x) in Records(s.events, Show(channel)) then 0
                 else multiset(ListenersOf(s, key))[x]
    {
      OffChannelCount(s, channel, event, key, x);
    }
  }

  /** `off()`, and any `off` whose channel and event are both falsy: there is
      no key, so the emitter drops every subscription while the registry is
      left as it was. */
  lemma OffEverything(s: State, channel: Part, event: Part, callback: Option<Callback>)
    requires Falsy(channel) && Falsy(event)
    ensures var r := Off(s, channel, event, callback);
            && r.events == s.events
            && forall c2, e2 :: Emit(r, c2, e2) == []
  {
    var ch := Show(channel);
    if ch in s.events && callback.Some? {
      assert FindWhere(s.events[ch], None, callback).None?;
    }
  }

  /** `off` as written, over a plain object: a channel never subscribed but
      named like an inherited member that declares parameters reads as a
      truthy function; with neither event nor callback `_.each` walks it as
      an array of `undefined`, and `e.name` throws a TypeError (`None`).
      Every other call behaves as `Off`. */
  function OffAsWritten(s: State, channel: Part, event: Part, callback: Option<Callback>): (r: Option<State>)
    ensures Show(channel) !in s.events && Show(channel) in InheritedWithParameters && Falsy(event) && callback.None?
            ==> r.None?
    ensures Show(channel) in s.events || Show(channel) !in InheritedWithParameters || !Falsy(event) || callback.Some?
            ==> r == Some(Off(s, channel, event, callback))
  {
    if Show(channel) !in s.events && Show(channel) in InheritedWithParameters && Falsy(event) && callback.None? then None
    else Some(Off(s, channel, event, callback))
  }

  /** The input that shows it: `off("constructor")` on a fresh instance
      throws, where the corrected `off` leaves the instance as it was. */
  lemma OffAsWrittenThrowsOnConstructor()
    ensures OffAsWritten(Fresh, Some("constructor"), None, None).None?
    ensures Off(Fresh, Some("constructor"), None, None) == Fresh
  {
    assert Off(Fresh, Some("constructor"), None, None).subs == map[];
  }

  // ---------------------------------------------------------------- test scenarios

  /** Removal cases of the test suite, after `on(c, e, cb)`: `off(c, e, cb)`
      and `off(c, e)` silence `cb`, `off(c, e, other)` does not, and
      `off(c, e)` keeps the registry as it was. */
  lemma OffCases(c: string, e: string, cb: Callback, other: Callback)
    requires c != "" && e != "" && other != cb
    ensures var s := On(Fresh, Some(c), Some(e), cb);
            && Emit(Off(s, Some(c), Some(e), Some(cb)), Some(c), Some(e)) == []
            && Emit(Off(s, Some(c), Some(e), Some(other)), Some(c), Some(e)) == [cb]
            && Emit(Off(s, Some(c), Some(e), None), Some(c), Some(e)) == []
            && Off(s, Some(c), Some(e), None).events == s.events
  {
    var s := On(Fresh, Some(c), Some(e), cb);
    OnEffect(Fresh, Some(c), Some(e), cb);
    OffWithCallback(s, Some(c), Some(e), cb);
    OffWithCallback(s, Some(c), Some(e), other);
    OffWithoutCallback(s, Some(c), Some(e));
  }

  /** Subscribing, removing by channel and event, and subscribing again
      leaves exactly one subscription: `emit` invokes the callback once,
      whatever the instance held before. */
  lemma Resubscribe(s: State, channel: Part, event: Part, cb: Callback)
    requires CreateEventName(channel, event).Some?
    ensures var r := On(Off(On(s, channel, event, cb), channel, event, None), channel, event, cb);
            Emit(r, channel, event) == [cb]
  {
    var s2 := Off(On(s, channel, event, cb), channel, event, None);
    assert Emit(s2, channel, event) == [];
    OnEffect(s2, channel, event, cb);
  }

  /** Total invocations of `cb` over the four emits of the channel tests. */
  function ReachedFour(s: State, c: string, e1: string, e2: string, c2: string, e3: string, e4: string, cb: Callback): nat {
    Reached(s, Some(c), Some(e1), cb) + Reached(s, Some(c), Some(e2), cb)
      + Reached(s, Some(c2), Some(e3), cb) + Reached(s, Some(c2), Some(e4), cb)
  }

  /** Two subscriptions of `cb` on one channel, as the channel tests make them. */
  function OnTwice(s: State, c: string, ea: string, eb: string, cb: Callback): State
    requires c != ""
  {
    On(On(s, Some(c), Some(ea), cb), Some(c), Some(eb), cb)
  }

  /** The four subscriptions of the channel tests: `(c, e1)`, `(c, e2)`,
      `(c2, e3)`, `(c2, e4)`, all with `cb`. */
  function FourSubscriptions(c: string, e1: string, e2: string, c2: string, e3: string, e4: string, cb: Callback): State
    requires c != "" && c2 != ""
  {
    OnTwice(OnTwice(Fresh, c, e1, e2, cb), c2, e3, e4, cb)
  }

  /** `on` seen at one channel and one key: one record more on its own
      channel, one `cb` more under its own key, nothing else. */
  lemma OnAt(s: State, c: string, e: string, cb: Callback, ch: string, key: string)
    requires c != ""
    ensures var r := On(s, Some(c), Some(e), cb);
            && Records(r.events, ch) == Records(s.events, ch) + (if ch == c then [Record(c + "|" + e, cb)] else [])
            && ListenersOf(r, key) == ListenersOf(s, key) + (if key == c + "|" + e then [cb] else [])
  {
    assert CreateEventName(Some(c), Some(e)) == Some(c + "|" + e);
  }

  /** Two subscriptions on channel `c` add two records to its list, none to
      any other channel, and one `cb` under each of their keys. */
  lemma OnTwiceEffect(s: State, c: string, ea: string, eb: string, cb: Callback, ch: string, key: string)
    requires c != ""
    ensures var r := OnTwice(s, c, ea, eb, cb);
            && Records(r.events, c) == Records(s.events, c) + [Record(c + "|" + ea, cb), Record(c + "|" + eb, cb)]
            && (ch != c ==> Records(r.events, ch) == Records(s.events, ch))
            && ListenersOf(r, key) == ListenersOf(s, key) + (if key == c + "|" + ea then [cb] else [])
                                                          + (if key == c + "|" + eb then [cb] else [])
  {
    var s1 := On(s, Some(c), Some(ea), cb);
    var r := On(s1, Some(c), Some(eb), cb);
    assert r == OnTwice(s, c, ea, eb, cb);
    assert Records(r.events, c) == Records(s.events, c) + [Record(c + "|" + ea, cb), Record(c + "|" + eb, cb)] by {
      OnAt(s, c, ea, cb, c, key);
      OnAt(s1, c, eb, cb, c, key);
    }
    assert ch != c ==> Records(r.events, ch) == Records(s.events, ch) by {
      OnAt(s, c, ea, cb, ch, key);
      OnAt(s1, c, eb, cb, ch, key);
    }
    assert ListenersOf(r, key) == ListenersOf(s, key) + (if key == c + "|" + ea then [cb] else [])
                                                      + (if key == c + "|" + eb then [cb] else []) by {
      OnAt(s, c, ea, cb, c, key);
      OnAt(s1, c, eb, cb, c, key);
    }
  }

  /** What the four subscriptions leave behind: two records on channel `c`,
      and `cb` once under each key of channel `c2`. */
  lemma FourSubscriptionsState(c: string, e1: string, e2: string, c2: string, e3: string, e4: string, cb: Callback)
    requires c != "" && c2 != "" && c != c2 && BarFree(c) && BarFree(c2)
    requires e3 != e4
    ensures var s := FourSubscriptions(c, e1, e2, c2, e3, e4, cb);
            && Records(s.events, c) == [Record(c + "|" + e1, cb), Record(c + "|" + e2, cb)]
            && ListenersOf(s, c2 + "|" + e3) == [cb]
            && ListenersOf(s, c2 + "|" + e4) == [cb]
  {
    var k3, k4 := c2 + "|" + e3, c2 + "|" + e4;
    var s2 := OnTwice(Fresh, c, e1, e2, cb);
    SplitAtSeparator(c2, e3, c, e1);
    SplitAtSeparator(c2, e3, c, e2);
    SplitAtSeparator(c2, e4, c, e1);
    SplitAtSeparator(c2, e4, c, e2);
    SplitAtSeparator(c2, e4, c2, e3);
    OnTwiceEffect(Fresh, c, e1, e2, cb, c, k3);
    OnTwiceEffect(s2, c2, e3, e4, cb, c, k3);
    OnTwiceEffect(Fresh, c, e1, e2, cb, c, k4);
    OnTwiceEffect(s2, c2, e3, e4, cb, c, k4);
  }

  /** The invocations of `cb` by `emit(c, e)` are its entries under `c|e`. */
  lemma ReachedUnderKey(s: State, c: string, e: string, cb: Callback)
    requires c != ""
    ensures Reached(s, Some(c), Some(e), cb) == multiset(ListenersOf(s, c + "|" + e))[cb]
  {
  }

  /** `off(c)` silences `cb` under every event `e` for which channel `c`
      holds the record `{c|e, cb}`, however many records the channel has. */
  lemma OffChannelSilences(s0: State, c: string, cb: Callback)
    requires c != ""
    ensures forall e :: Record(c + "|" + e, cb) in Records(s0.events, c)
                        ==> Reached(Off(s0, Some(c), None, None), Some(c), Some(e), cb) == 0
  {
    forall e | Record(c + "|" + e, cb) in Records(s0.events, c)
      ensures Reached(Off(s0, Some(c), None, None), Some(c), Some(e), cb) == 0
    {
      OffChannelCount(s0, Some(c), None, c + "|" + e, cb);
    }
  }

  /** The test that removes all events on a channel: after `on(c, e1, cb)`,
      `on(c, e2, cb)`, `on(c, e3, cb)` and `off(c)`, none of the three emits
      invokes `cb`. */
  lemma OffChannelThreeEvents(c: string, e1: string, e2: string, e3: string, cb: Callback)
    requires c != ""
    ensures var s := Off(On(OnTwice(Fresh, c, e1, e2, cb), Some(c), Some(e3), cb), Some(c), None, None);
            && Reached(s, Some(c), Some(e1), cb) == 0
            && Reached(s, Some(c), Some(e2), cb) == 0
            && Reached(s, Some(c), Some(e3), cb) == 0
  {
    var s2 := OnTwice(Fresh, c, e1, e2, cb);
    var s0 := On(s2, Some(c), Some(e3), cb);
    var recs := [Record(c + "|" + e1, cb), Record(c + "|" + e2, cb), Record(c + "|" + e3, cb)];
    OnTwiceEffect(Fresh, c, e1, e2, cb, c, c);
    OnEffect(s2, Some(c), Some(e3), cb);
    assert Records(s0.events, c) == recs;
    assert recs[0] in recs && recs[1] in recs && recs[2] in recs;
    OffChannelSilences(s0, c, cb);
  }

  /** `off(c)` on the same instance keeps a subscription of `cb` under a key
      `c2|e` of another channel. */
  lemma OffChannelKeepsOther(s0: State, c: string, e1: string, e2: string, c2: string, e: string, cb: Callback)
    requires c != "" && c2 != "" && c != c2 && BarFree(c) && BarFree(c2)
    requires Records(s0.events, c) == [Record(c + "|" + e1, cb), Record(c + "|" + e2, cb)]
    requires ListenersOf(s0, c2 + "|" + e) == [cb]
    ensures Reached(Off(s0, Some(c), None, None), Some(c2), Some(e), cb) == 1
  {
    var key := c2 + "|" + e;
    OffChannelCount(s0, Some(c), None, key, cb);
    SplitAtSeparator(c2, e, c, e1);
    SplitAtSeparator(c2, e, c, e2);
    SplitAtSeparator(c2, e, c, "undefined");
    assert multiset(ListenersOf(s0, key))[cb] == 1;
  }

  /** `off(c)` after subscribing `(c, e1)`, `(c, e2)`, `(c2, e3)`, `(c2, e4)`:
      the four emits invoke the callback twice, from channel `c2` only. */
  lemma OffChannelScenario(c: string, e1: string, e2: string, c2: string, e3: string, e4: string, cb: Callback)
    requires c != "" && c2 != "" && c != c2 && BarFree(c) && BarFree(c2)
    requires e3 != e4
    ensures var s := Off(FourSubscriptions(c, e1, e2, c2, e3, e4, cb), Some(c), None, None);
            && ReachedFour(s, c, e1, e2, c2, e3, e4, cb) == 2
            && Reached(s, Some(c), Some(e1), cb) == 0
            && Reached(s, Some(c), Some(e2), cb) == 0
  {
    var s0 := FourSubscriptions(c, e1, e2, c2, e3, e4, cb);
    FourSubscriptionsState(c, e1, e2, c2, e3, e4, cb);
    OffChannelSilences(s0, c, cb);
    assert Records(s0.events, c)[0] in Records(s0.events, c) && Records(s0.events, c)[1] in Records(s0.events, c);
    OffChannelKeepsOther(s0, c, e1, e2, c2, e3, cb);
    OffChannelKeepsOther(s0, c, e1, e2, c2, e4, cb);
  }

  /** `off()` after the same four subscriptions: the four emits invoke
      nothing. */
  lemma OffAllScenario(c: string, e1: string, e2: string, c2: string, e3: string, e4: string, cb: Callback)
    requires c != "" && c2 != ""
    ensures ReachedFour(Off(FourSubscriptions(c, e1, e2, c2, e3, e4, cb), None, None, None), c, e1, e2, c2, e3, e4, cb) == 0
  {
    OffEverything(FourSubscriptions(c, e1, e2, c2, e3, e4, cb), None, None, None);
  }
}
