/** The dispatcher's own registry `events`: for each channel, the records
    `{name, callback}` of the subscriptions made on it, in the order they
    were made. It exists so that `off(channel)` can find every key the
    channel's callbacks were subscribed under. */
module Registry {
  import opened JsValues
  import Emitter

  /** One entry of `events[channel]`: the composed key and the callback. */
  datatype Record = Record(name: string, callback: Callback)

  /** JavaScript object keys are strings, so the registry is keyed by the
      printed channel. */
  type Events = map<string, seq<Record>>

  /** `events[channel]`, with a missing channel read as no records. */
  function Records(events: Events, channel: string): (r: seq<Record>)
    ensures channel in events ==> r == events[channel]
    ensures channel !in events ==> r == []
  {
    if channel in events then events[channel] else []
  }

  /** The registry half of `on`: `events[channel] = events[channel] || []`
      followed by a push onto that list. */
  function Push(events: Events, channel: string, rec: Record): (r: Events)
    ensures r.Keys == events.Keys + {channel}
    ensures r[channel] == Records(events, channel) + [rec]
    ensures forall ch :: ch in events && ch != channel ==> r[ch] == events[ch]
  {
    events[channel := Records(events, channel) + [rec]]
  }

  /** Names every plain JavaScript object inherits from `Object.prototype`;
      reading one of them from `{}` gives a function or an object, never an
      array. */
  const InheritedNames: set<string> := {
    "constructor", "hasOwnProperty", "isPrototypeOf", "propertyIsEnumerable",
    "toLocaleString", "toString", "valueOf", "__proto__",
    "__defineGetter__", "__defineSetter__", "__lookupGetter__", "__lookupSetter__"
  }

  /** The inherited members that are functions declaring at least one
      parameter: their `length` is positive, so `_.each` walks them as
      arrays whose elements are `undefined`. */
  const InheritedWithParameters: set<string> := {
    "constructor", "hasOwnProperty", "isPrototypeOf", "propertyIsEnumerable",
    "__defineGetter__", "__defineSetter__", "__lookupGetter__", "__lookupSetter__"
  }

  /** `on`'s registry update as written, over a plain object: a channel
      named like an inherited member reads as a truthy non-array, so
      `events[channel] || []` keeps it and `.push` throws a TypeError
      (`None`). */
  function PushAsWritten(events: Events, channel: string, rec: Record): (r: Option<Events>)
    ensures channel in events || channel !in InheritedNames ==> r == Some(Push(events, channel, rec))
    ensures channel !in events && channel in InheritedNames ==> r.None?
  {
    if channel !in events && channel in InheritedNames then None
    else Some(events[channel := Records(events, channel) + [rec]])
  }

  /** The input that shows it: the first `on` on channel "constructor"
      throws instead of registering anything. */
  lemma PushAsWrittenThrowsOnConstructor(rec: Record)
    ensures PushAsWritten(map[], "constructor", rec) == None
    ensures Push(map[], "constructor", rec)["constructor"] == [rec]
  {
  }

  /** The match `_.findWhere` performs with `{name: name, callback: callback}`:
      strict equality on both fields, so an absent name or callback matches
      no record (every record holds a key and a callback). */
  predicate Matches(rec: Record, name: Option<string>, cb: Option<Callback>): (r: bool)
    ensures name.None? || cb.None? ==> !r
    ensures name.Some? && cb.Some? ==> (r <==> rec == Record(name.value, cb.value))
  {
    name == Some(rec.name) && cb == Some(rec.callback)
  }

  /** `_.findWhere`: the index of the first matching record, if any. */
  function FindWhere(recs: seq<Record>, name: Option<string>, cb: Option<Callback>): (r: Option<nat>)
    ensures r.Some? ==> r.value < |recs| && Matches(recs[r.value], name, cb)
    ensures forall j :: 0 <= j < |recs| && (r.None? || j < r.value) ==> !Matches(recs[j], name, cb)
  {
    if recs == [] then None
    else if Matches(recs[0], name, cb) then Some(0)
    else
      match FindWhere(recs[1..], name, cb)
      case None => None
      case Some(i) => Some(i + 1)
  }

  /** The registry half of `off(channel, event, callback)` when the channel
      has a list: the first matching record is taken out with `_.without`.
      Records are distinct objects, so `_.without` removes that one record
      and keeps any equal duplicates. */
  function RemoveFirst(events: Events, channel: string, name: Option<string>, cb: Option<Callback>): (r: Events)
    requires channel in events
    ensures r.Keys == events.Keys
    ensures forall ch :: ch in events && ch != channel ==> r[ch] == events[ch]
    ensures FindWhere(events[channel], name, cb).None? ==> r == events
    ensures FindWhere(events[channel], name, cb).Some? ==>
              var i := FindWhere(events[channel], name, cb).value;
              r[channel] == events[channel][..i] + events[channel][i + 1..]
  {
    match FindWhere(events[channel], name, cb)
    case None => events
    case Some(i) => events[channel := events[channel][..i] + events[channel][i + 1..]]
  }

  /** Removing a matching record takes exactly one copy of it out of the
      channel's list and leaves every other record's count alone. */
  lemma RemoveFirstTakesOneCopy(events: Events, channel: string, name: Option<string>, cb: Option<Callback>)
    requires channel in events
    requires FindWhere(events[channel], name, cb).Some?
    ensures var rec := Record(name.value, cb.value);
            multiset(RemoveFirst(events, channel, name, cb)[channel]) + multiset{rec}
              == multiset(events[channel])
  {
    var recs := events[channel];
    var i := FindWhere(recs, name, cb).value;
    assert recs == recs[..i] + [recs[i]] + recs[i + 1..];
  }

  /** The keys a channel's records were subscribed under. */
  function Names(recs: seq<Record>): set<string> {
    set rec | rec in recs :: rec.name
  }

  /** The loop of `off(channel)`: every record of the channel is
      unsubscribed from the emitter under its own key, in list order. */
  function UnsubscribeEach(subs: Emitter.Subscribers, recs: seq<Record>): (r: Emitter.Subscribers)
    ensures forall rec :: rec in recs ==> rec.callback !in Emitter.Listeners(r, Some(rec.name))
    ensures forall key :: key !in Names(recs) ==> Emitter.Listeners(r, Some(key)) == Emitter.Listeners(subs, Some(key))
    decreases |recs|
  {
    if recs == [] then subs
    else
      var init, last := recs[..|recs| - 1], recs[|recs| - 1];
      var before := UnsubscribeEach(subs, init);
      var r := Emitter.Unsubscribe(before, Some(last.name), Some(last.callback));
      assert recs == init + [last];
      assert forall rec :: rec in init ==> rec.callback !in Emitter.Listeners(r, Some(rec.name)) by {
        forall rec | rec in init
          ensures rec.callback !in Emitter.Listeners(r, Some(rec.name))
        {
          Emitter.UnsubscribeAddsNothing(before, Some(last.name), Some(last.callback), rec.name, rec.callback);
        }
      }
      r
  }

  /** After the loop, a callback is still subscribed under a key exactly as
      often as before, unless some record pairs it with that key, in which
      case it is gone. */
  lemma {:induction false} UnsubscribeEachCount(subs: Emitter.Subscribers, recs: seq<Record>, key: string, cb: Callback)
    ensures multiset(Emitter.Listeners(UnsubscribeEach(subs, recs), Some(key)))[cb]
            == if Record(key, cb) in recs then 0 else multiset(Emitter.Listeners(subs, Some(key)))[cb]
    decreases |recs|
  {
    if recs != [] {
      var init, last := recs[..|recs| - 1], recs[|recs| - 1];
      assert recs == init + [last];
      UnsubscribeEachCount(subs, init, key, cb);
      var before := UnsubscribeEach(subs, init);
      var after := Emitter.Unsubscribe(before, Some(last.name), Some(last.callback));
      assert UnsubscribeEach(subs, recs) == after;
      assert Record(key, cb) in recs <==> Record(key, cb) in init || last == Record(key, cb);
      if last.name == key {
        assert Emitter.Listeners(after, Some(key)) == Emitter.Drop(Emitter.Listeners(before, Some(key)), last.callback);
      } else {
        assert Emitter.Listeners(after, Some(key)) == Emitter.Listeners(before, Some(key));
      }
    }
  }
}
