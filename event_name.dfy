/** The key composer: how a (channel, event) pair becomes the single
    string key the underlying emitter is addressed with. */
module EventName {
  import opened JsValues

  const Separator: char := '|'

  /** `createEventName`: no key when both parts are falsy, otherwise the
      printed channel, the separator and the printed event. */
  function CreateEventName(channel: Part, event: Part): (r: Option<string>)
    ensures r.None? <==> Falsy(channel) && Falsy(event)
  {
    if Falsy(channel) && Falsy(event) then None
    else Some(Show(channel) + [Separator] + Show(event))
  }

  /** A string that can be split unambiguously at its first separator. */
  predicate BarFree(s: string) {
    Separator !in s
  }

  /** Position of the first separator in `s`, or `|s|` when there is none. */
  function FirstSeparator(s: string): (i: nat)
    ensures i <= |s|
    ensures i < |s| ==> s[i] == Separator
    ensures forall j :: 0 <= j < i && j < |s| ==> s[j] != Separator
  {
    if s == [] || s[0] == Separator then 0 else 1 + FirstSeparator(s[1..])
  }

  /** In `a|b` with `a` free of separators, the first separator sits right
      after `a`. */
  lemma FirstSeparatorAfter(a: string, b: string)
    requires BarFree(a)
    ensures FirstSeparator(a + [Separator] + b) == |a|
  {
    var x := a + [Separator] + b;
    var i := FirstSeparator(x);
    assert x[|a|] == Separator;
  }

  /** Splitting at the first separator: when the left-hand parts hold no
      separator, the concatenation determines both parts. */
  lemma SplitAtSeparator(a: string, b: string, a': string, b': string)
    requires BarFree(a) && BarFree(a')
    ensures a + [Separator] + b == a' + [Separator] + b' <==> a == a' && b == b'
  {
    var x, x' := a + [Separator] + b, a' + [Separator] + b';
    if x == x' {
      FirstSeparatorAfter(a, b);
      FirstSeparatorAfter(a', b');
      assert a == x[..|a|] == x'[..|a'|] == a';
      assert b == x[|a| + 1..] == x'[|a'| + 1..] == b';
    }
  }

  /** Two keys are equal exactly when both printed parts are equal, provided
      the printed channels hold no separator. Events may contain one. */
  lemma KeyInjective(c1: Part, e1: Part, c2: Part, e2: Part)
    requires BarFree(Show(c1)) && BarFree(Show(c2))
    requires CreateEventName(c1, e1).Some? && CreateEventName(c2, e2).Some?
    ensures CreateEventName(c1, e1) == CreateEventName(c2, e2)
            <==> Show(c1) == Show(c2) && Show(e1) == Show(e2)
  {
    SplitAtSeparator(Show(c1), Show(e1), Show(c2), Show(e2));
  }

  /** Without the restriction on channels the composition collides. */
  lemma KeyCollidesOnSeparator()
    ensures CreateEventName(Some("a|b"), Some("c")) == CreateEventName(Some("a"), Some("b|c"))
  {
    assert "a|b" + [Separator] + "c" == "a|b|c" == "a" + [Separator] + "b|c";
  }

  /** A channel-only key `c|undefined` is the key of another pair only when
      that pair has the same channel and its event is absent or literally
      named "undefined": it is never the key of another channel, nor of any
      other event of the same channel. */
  lemma ChannelOnlyKey(c: string, c2: Part, e2: Part)
    requires c != "" && BarFree(c) && BarFree(Show(c2))
    requires CreateEventName(c2, e2).Some?
    ensures CreateEventName(Some(c), None) == CreateEventName(c2, e2)
            <==> Show(c2) == c && Show(e2) == "undefined"
  {
    KeyInjective(Some(c), None, c2, e2);
  }

  /** The quirk in concrete form: `c|undefined` is also the key of the event
      named "undefined". */
  lemma ChannelOnlyMeetsUndefinedEvent(c: string)
    requires c != ""
    ensures CreateEventName(Some(c), None) == CreateEventName(Some(c), Some("undefined"))
  {
  }
}
