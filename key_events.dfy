/**
 * `useKey`: one `keydown` listener on the document that calls the handler
 * when the pressed key equals the configured key ignoring case, added by the
 * effect and removed by its cleanup. Lower-casing is modelled on ASCII.
 */
module KeyEvents {

  function LowerChar(c: char): (l: char)
    ensures 'A' <= c <= 'Z' ==> l as int == c as int + 32
    ensures !('A' <= c <= 'Z') ==> l == c
  {
    if 'A' <= c <= 'Z' then (c as int + 32) as char else c
  }

  /** `s.toLowerCase()` on ASCII text. */
  function Lower(s: string): (r: string)
    ensures |r| == |s|
    ensures forall i :: 0 <= i < |s| ==> r[i] == LowerChar(s[i])
  {
    if s == [] then [] else [LowerChar(s[0])] + Lower(s[1..])
  }

  /** `e.key.toLowerCase() === key.toLowerCase()` */
  predicate KeyMatches(pressed: string, key: string)
    ensures pressed == key ==> KeyMatches(pressed, key)
    ensures KeyMatches(pressed, key) ==> |pressed| == |key|
  {
    Lower(pressed) == Lower(key)
  }

  /** A key matches exactly when it has the same length and agrees letter by letter ignoring case. */
  lemma KeyMatchesIff(pressed: string, key: string)
    ensures KeyMatches(pressed, key) <==>
      |pressed| == |key| && forall i :: 0 <= i < |key| ==> LowerChar(pressed[i]) == LowerChar(key[i])
  {
  }

  /** Lower-casing twice is lower-casing once. */
  lemma LowerIdempotent(s: string)
    ensures Lower(Lower(s)) == Lower(s)
  {
  }

  /** Matching is an equivalence: case never matters, in either argument. */
  lemma KeyMatchesEquivalence(a: string, b: string, c: string)
    ensures KeyMatches(a, a)
    ensures KeyMatches(a, b) ==> KeyMatches(b, a)
    ensures KeyMatches(a, b) && KeyMatches(b, c) ==> KeyMatches(a, c)
    ensures KeyMatches(Lower(a), a)
  {
  }

  /** The detail panel registers 'eSCApe'; the browser reports "Escape". */
  lemma EscapeMatchesMixedCase()
    ensures KeyMatches("Escape", "eSCApe")
    ensures !KeyMatches("Enter", "eSCApe")
  {
  }

  /** The closure `callback` one effect run creates; each run creates a new one. */
  class Listener {
    const key: string
    /** The identity of the `handlerFunc` the closure calls. */
    const handler: nat

    constructor (key: string, handler: nat)
      ensures this.key == key && this.handler == handler
    {
      this.key := key;
      this.handler := handler;
    }

    /** Whether this listener calls its handler for a `keydown` of `pressed`. */
    predicate Fires(pressed: string)
    {
      KeyMatches(pressed, key)
    }
  }

  /** The document's set of `keydown` listeners. */
  class Document {
    var keydown: set<Listener>

    constructor ()
      ensures keydown == {}
    {
      keydown := {};
    }

    /** `addEventListener('keydown', listener)`; adding a listener twice keeps one copy. */
    method AddEventListener(listener: Listener)
      modifies this
      ensures keydown == old(keydown) + {listener}
    {
      keydown := keydown + {listener};
    }

    /** `removeEventListener('keydown', listener)` */
    method RemoveEventListener(listener: Listener)
      modifies this
      ensures keydown == old(keydown) - {listener}
    {
      keydown := keydown - {listener};
    }

    /**
     * The handlers a `keydown` of `pressed` calls, as a set: the order of
     * registration and a handler registered by two listeners (which would
     * run twice) are not represented. Neither arises at the app's `useKey`
     * call sites, which use different keys and handlers.
     */
    function Dispatch(pressed: string): (handlers: set<nat>)
      reads this
      ensures forall l :: l in keydown && l.Fires(pressed) ==> l.handler in handlers
      ensures forall h :: h in handlers ==> exists l :: l in keydown && l.Fires(pressed) && l.handler == h
    {
      set l | l in keydown && l.Fires(pressed) :: l.handler
    }
  }

  /** One `useKey(key, handlerFunc)` call site and the listener its last effect run added. */
  class KeyHook {
    const document: Document
    var key: string
    var handler: nat
    var listener: Listener

    ghost predicate Subscribed()
      reads this, document
    {
      listener in document.keydown && listener.key == key && listener.handler == handler
    }

    /** Mounting runs the effect: a fresh listener is added, nothing else changes. */
    constructor (document: Document, key: string, handler: nat)
      modifies document
      ensures this.document == document && this.key == key && this.handler == handler
      ensures fresh(listener) && Subscribed()
      ensures document.keydown == old(document.keydown) + {listener}
    {
      this.document := document;
      this.key := key;
      this.handler := handler;
      listener := new Listener(key, handler);
      new;
      document.AddEventListener(listener);
    }

    /**
     * A render with new arguments: when the key or the handler changed, the
     * cleanup removes the old listener and then a new one is added.
     */
    method Rerender(k: string, h: nat)
      requires Subscribed()
      modifies this, document
      ensures key == k && handler == h && Subscribed()
      ensures (k == old(key) && h == old(handler)) ==>
                listener == old(listener) && document.keydown == old(document.keydown)
      ensures (k != old(key) || h != old(handler)) ==>
                fresh(listener) && document.keydown == old(document.keydown) - {old(listener)} + {listener}
    {
      if k != key || h != handler {
        document.RemoveEventListener(listener);
        key, handler := k, h;
        listener := new Listener(k, h);
        document.AddEventListener(listener);
      }
    }

    /** Unmounting runs the cleanup: this hook's listener is removed. */
    method Unmount()
      requires Subscribed()
      modifies document
      ensures document.keydown == old(document.keydown) - {listener}
    {
      document.RemoveEventListener(listener);
    }
  }

  /** Subscribing then unsubscribing a new listener gives back the listener set it started from. */
  lemma SubscribeThenUnsubscribe(before: set<Listener>, listener: Listener)
    requires listener !in before
    ensures (before + {listener}) - {listener} == before
  {
  }

  /** With only one listener registered, its handler runs exactly for the keys that match ignoring case. */
  lemma DispatchSingleListener(document: Document, listener: Listener, pressed: string)
    requires document.keydown == {listener}
    ensures listener.handler in document.Dispatch(pressed) <==> KeyMatches(pressed, listener.key)
  {
  }

  /** Mounting and then unmounting a hook leaves the document's listeners as they were. */
  method MountThenUnmount(document: Document, key: string, handler: nat)
    modifies document
    ensures document.keydown == old(document.keydown)
  {
    var hook := new KeyHook(document, key, handler);
    hook.Unmount();
    SubscribeThenUnsubscribe(old(document.keydown), hook.listener);
  }
}
