/** One dispatcher instance, as the factory returns it: the registry
    `events` and the emitter's subscribers are fields that `on` and `off`
    update in place. Each method is proved to perform the corresponding step
    of module `Eec`, where the properties of those steps are proved. */
module Instance {
  import opened JsValues
  import opened EventName
  import opened Registry
  import Emitter
  import Eec

  class Dispatcher {
    /** The registry: channel -> records `{name, callback}`. */
    var events: Events
    /** The subscribers the private emitter holds, per key. */
    var subs: Emitter.Subscribers

    /** The instance's state as a value. */
    function Snapshot(): Eec.State
      reads this
    {
      Eec.State(events, subs)
    }

    /** The factory call: a new registry and a new emitter, shared with no
        other instance. */
    constructor ()
      ensures Snapshot() == Eec.Fresh
    {
      events := map[];
      subs := map[];
    }

    /** `on(channel, event, callback)`. */
    method On(channel: Part, event: Part, callback: Callback)
      requires CreateEventName(channel, event).Some?
      modifies this
      ensures Snapshot() == Eec.On(old(Snapshot()), channel, event, callback)
    {
      var name := CreateEventName(channel, event).value;
      var ch := Show(channel);
      var list := if ch in events then events[ch] else [];
      events := events[ch := list + [Record(name, callback)]];
      subs := Emitter.Subscribe(subs, name, callback);
    }

    /** `off(channel, event, callback)`: the walk over the channel's records,
        or the removal of the first matching record, then `emitter.off`. */
    method Off(channel: Part, event: Part, callback: Option<Callback>)
      modifies this
      ensures Snapshot() == Eec.Off(old(Snapshot()), channel, event, callback)
    {
      var name := CreateEventName(channel, event);
      var ch := Show(channel);
      if ch in events && Falsy(event) && callback.None? {
        UnsubscribeAll(events[ch]);
      } else if ch in events {
        var found := FindWhere(events[ch], name, callback);
        if found.Some? {
          var list := events[ch];
          events := events[ch := list[..found.value] + list[found.value + 1..]];
        }
      }
      subs := Emitter.Unsubscribe(subs, name, callback);
    }

    /** The loop over a channel's records: each record's subscription is
        taken off the emitter, first record first. */
    method UnsubscribeAll(recs: seq<Record>)
      modifies this
      ensures events == old(events)
      ensures subs == UnsubscribeEach(old(subs), recs)
    {
      var i := 0;
      while i < |recs|
        invariant 0 <= i <= |recs|
        invariant events == old(events)
        invariant subs == UnsubscribeEach(old(subs), recs[..i])
      {
        subs := Emitter.Unsubscribe(subs, Some(recs[i].name), Some(recs[i].callback));
        i := i + 1;
        assert recs[..i][..i - 1] == recs[..i - 1];
      }
      assert recs[..i] == recs;
    }

    /** `has(channel, event, callback)`; changes nothing. */
    method Has(channel: Part, event: Part, callback: Option<Callback>) returns (present: bool)
      ensures present == Eec.Has(Snapshot(), channel, event, callback)
    {
      present := Emitter.Has(subs, CreateEventName(channel, event), callback);
    }

    /** `emit(channel, event)`: the callbacks that are invoked, in order;
        changes nothing. */
    method Emit(channel: Part, event: Part) returns (invoked: seq<Callback>)
      ensures invoked == Eec.Emit(Snapshot(), channel, event)
    {
      invoked := Emitter.Listeners(subs, CreateEventName(channel, event));
    }
  }

  /** A client of the class: subscribe, remove by channel and event,
      subscribe again, emit. The callback is invoked exactly once. */
  method AddRemoveAdd(cb: Callback) returns (invoked: seq<Callback>)
    ensures invoked == [cb]
  {
    var d := new Dispatcher();
    d.On(Some("channel"), Some("event"), cb);
    d.Off(Some("channel"), Some("event"), None);
    d.On(Some("channel"), Some("event"), cb);
    invoked := d.Emit(Some("channel"), Some("event"));
    Eec.Resubscribe(Eec.Fresh, Some("channel"), Some("event"), cb);
  }

  /** A client of the class: a subscription answers `has` for its own
      channel, event and callback, not for a channel-only query nor for
      another callback. */
  method QueryAfterOn(cb: Callback, other: Callback) returns (same: bool, channelOnly: bool, otherCallback: bool)
    requires other != cb
    ensures same && !channelOnly && !otherCallback
  {
    var d := new Dispatcher();
    d.On(Some("channel"), Some("event"), cb);
    same := d.Has(Some("channel"), Some("event"), Some(cb));
    channelOnly := d.Has(Some("channel"), None, None);
    otherCallback := d.Has(Some("channel"), Some("event"), Some(other));
    Eec.HasCases("channel", "event", cb, "other-channel", "other-event", other);
  }
}
