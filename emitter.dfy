/** The single-key emitter the dispatcher is built on (`ee`). Its code is
    not part of this model: these functions write down the contract the
    dispatcher relies on, as an assumption. Subscribers are kept per key,
    in subscription order. */
module Emitter {
  import opened JsValues

  type Subscribers = map<string, seq<Callback>>

  /** The callbacks subscribed under `key`, in subscription order; a missing
      key (no key at all, or one never subscribed) has none. */
  function Listeners(subs: Subscribers, key: Option<string>): (r: seq<Callback>)
    ensures key.None? ==> r == []
    ensures key.Some? && key.value !in subs ==> r == []
    ensures key.Some? && key.value in subs ==> r == subs[key.value]
  {
    if key.Some? && key.value in subs then subs[key.value] else []
  }

  /** `cbs` with every occurrence of `cb` taken out; the others keep their
      counts here, and their order by `DropKeepsOrder`. */
  function Drop(cbs: seq<Callback>, cb: Callback): (r: seq<Callback>)
    ensures cb !in r
    ensures forall x :: x != cb ==> multiset(r)[x] == multiset(cbs)[x]
    ensures cb !in cbs ==> r == cbs
  {
    if cbs == [] then []
    else
      assert cbs == [cbs[0]] + cbs[1..];
      (if cbs[0] == cb then [] else [cbs[0]]) + Drop(cbs[1..], cb)
  }

  /** Dropping works element by element, so the callbacks that stay keep
      their relative order. */
  lemma {:induction false} DropKeepsOrder(a: seq<Callback>, b: seq<Callback>, cb: Callback)
    ensures Drop(a + b, cb) == Drop(a, cb) + Drop(b, cb)
  {
    if a == [] {
      assert a + b == b;
    } else {
      assert (a + b)[0] == a[0] && (a + b)[1..] == a[1..] + b;
      DropKeepsOrder(a[1..], b, cb);
    }
  }

  /** `emitter.on(key, cb)`: appends `cb` to the key's subscribers. */
  function Subscribe(subs: Subscribers, key: string, cb: Callback): (r: Subscribers)
    ensures Listeners(r, Some(key)) == Listeners(subs, Some(key)) + [cb]
    ensures forall k :: k != key ==> Listeners(r, Some(k)) == Listeners(subs, Some(k))
  {
    subs[key := Listeners(subs, Some(key)) + [cb]]
  }

  /** `emitter.off(key, cb)`: without a key every subscription is cleared;
      with a key and no callback that key loses all its subscribers; with
      both, every entry of `cb` under that key is removed. */
  function Unsubscribe(subs: Subscribers, key: Option<string>, cb: Option<Callback>): (r: Subscribers)
    ensures key.None? ==> forall k :: Listeners(r, k) == []
    ensures key.Some? && cb.None? ==> Listeners(r, key) == []
    ensures key.Some? && cb.Some? ==> Listeners(r, key) == Drop(Listeners(subs, key), cb.value)
    ensures key.Some? ==> forall k :: k != key.value ==> Listeners(r, Some(k)) == Listeners(subs, Some(k))
  {
    if key.None? then map[]
    else if cb.None? then subs - {key.value}
    else subs[key.value := Drop(Listeners(subs, key), cb.value)]
  }

  /** Unsubscribing never adds a callback under any key. */
  lemma UnsubscribeAddsNothing(subs: Subscribers, key: Option<string>, cb: Option<Callback>, k: string, x: Callback)
    requires x !in Listeners(subs, Some(k))
    ensures x !in Listeners(Unsubscribe(subs, key, cb), Some(k))
  {
    if key.Some? && cb.Some? && key.value == k && x != cb.value {
      assert multiset(Listeners(subs, Some(k)))[x] == 0;
    }
  }

  /** `emitter.has(key, cb)`: some subscriber under `key`, or, given a
      callback, that callback among them. */
  function Has(subs: Subscribers, key: Option<string>, cb: Option<Callback>): (r: bool)
    ensures r ==> key.Some? && key.value in subs && subs[key.value] != []
    ensures cb.Some? ==> (r <==> multiset(Listeners(subs, key))[cb.value] > 0)
  {
    if cb.None? then Listeners(subs, key) != [] else cb.value in Listeners(subs, key)
  }
}
