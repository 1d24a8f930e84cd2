/** Subscription bookkeeping of the process-wide event bus. A subscription
    is keyed by the subscribing class's simple name and the event type; the
    listeners of one type are kept in the order they were added. Delivery
    itself lives with the handlers it calls, in module `Engine`. */
module EventBus {
  import opened Events

  /** The handlers the program registers. `Render` stands for a user
      interface callback, which only redraws. */
  datatype Listener =
    | BoardOnChessmanMoved
    | RuleOnDiceRolled
    | RuleCheckGameOver
    | RuleOnChessmanOverEnd
    | EngineOnEndTurn
    | EngineOnGrantNewTurn
    | Render(name: string)

  datatype SubKey = SubKey(subscriber: string, eventType: EventType)

  datatype Bus = Bus(listeners: map<EventType, seq<Listener>>, subscriptions: set<SubKey>)

  const EmptyBus := Bus(map[], {})

  /** The listeners a publish of type `t` walks through, in order. */
  function ListenersFor(b: Bus, t: EventType): seq<Listener>
  {
    if t in b.listeners then b.listeners[t] else []
  }

  /** `subscribe`: a key already present leaves the bus as it is; otherwise
      the listener goes to the end of its type's list and the key is
      recorded. No other type's list changes. */
  function Subscribe(b: Bus, subscriber: string, t: EventType, l: Listener): (r: Bus)
    ensures SubKey(subscriber, t) in b.subscriptions ==> r == b
    ensures SubKey(subscriber, t) !in b.subscriptions ==>
      ListenersFor(r, t) == ListenersFor(b, t) + [l]
      && r.subscriptions == b.subscriptions + {SubKey(subscriber, t)}
    ensures forall u :: u != t ==> ListenersFor(r, u) == ListenersFor(b, u)
    ensures SubKey(subscriber, t) in r.subscriptions
  {
    var key := SubKey(subscriber, t);
    if key in b.subscriptions then b
    else Bus(b.listeners[t := ListenersFor(b, t) + [l]], b.subscriptions + {key})
  }

  /** `ls` with its first occurrence of `l` taken out. */
  function RemoveFirst(ls: seq<Listener>, l: Listener): (r: seq<Listener>)
    ensures l in ls ==> |r| == |ls| - 1 && multiset(r) == multiset(ls) - multiset{l}
    ensures l !in ls ==> r == ls
  {
    if |ls| == 0 then []
    else
      assert ls == [ls[0]] + ls[1..];
      if ls[0] == l then ls[1..]
      else [ls[0]] + RemoveFirst(ls[1..], l)
  }

  /** `unsubscribe`: for a type with a list, the first equal listener and
      the key are removed, and the type disappears once its list is empty;
      a type with no list leaves the bus unchanged, key included. */
  function Unsubscribe(b: Bus, subscriber: string, t: EventType, l: Listener): (r: Bus)
    ensures t !in b.listeners ==> r == b
    ensures t in b.listeners ==>
      r.subscriptions == b.subscriptions - {SubKey(subscriber, t)}
      && ListenersFor(r, t) == RemoveFirst(b.listeners[t], l)
      && (t in r.listeners <==> |RemoveFirst(b.listeners[t], l)| > 0)
    ensures forall u :: u != t ==> ListenersFor(r, u) == ListenersFor(b, u)
  {
    if t !in b.listeners then b
    else
      var rest := RemoveFirst(b.listeners[t], l);
      var subs := b.subscriptions - {SubKey(subscriber, t)};
      if |rest| == 0 then Bus(b.listeners - {t}, subs)
      else Bus(b.listeners[t := rest], subs)
  }

  /** `clear`: no listener and no key is left. */
  function Clear(b: Bus): (r: Bus)
    ensures forall t :: ListenersFor(r, t) == []
    ensures r.subscriptions == {}
  {
    EmptyBus
  }

  /** One registration: who subscribes, to what, with which handler. */
  datatype Registration = Registration(subscriber: string, eventType: EventType, listener: Listener)

  /** Registrations applied one after another. */
  function SubscribeAll(b: Bus, regs: seq<Registration>): Bus
    decreases |regs|
  {
    if |regs| == 0 then b
    else SubscribeAll(Subscribe(b, regs[0].subscriber, regs[0].eventType, regs[0].listener), regs[1..])
  }

  /** Reference definition of the list a type ends up with: walking the
      registrations in order, keep a listener exactly when its key has not
      been seen before. */
  function Kept(seen: set<SubKey>, regs: seq<Registration>, t: EventType): seq<Listener>
    decreases |regs|
  {
    if |regs| == 0 then []
    else
      var key := SubKey(regs[0].subscriber, regs[0].eventType);
      var head := if key !in seen && regs[0].eventType == t then [regs[0].listener] else [];
      head + Kept(seen + {key}, regs[1..], t)
  }

  /** The keys a sequence of registrations records. */
  function Keys(regs: seq<Registration>): set<SubKey>
    decreases |regs|
  {
    if |regs| == 0 then {} else {SubKey(regs[0].subscriber, regs[0].eventType)} + Keys(regs[1..])
  }

  lemma AppendAssoc<T>(a: seq<T>, b: seq<T>, c: seq<T>)
    ensures (a + b) + c == a + (b + c)
  {
  }

  /** After any sequence of subscriptions the recorded keys are the old
      ones plus every key registered. */
  lemma {:induction false} SubscribeAllKeys(b: Bus, regs: seq<Registration>)
    ensures SubscribeAll(b, regs).subscriptions == b.subscriptions + Keys(regs)
    decreases |regs|
  {
    if |regs| > 0 {
      var r := regs[0];
      var key := SubKey(r.subscriber, r.eventType);
      var b' := Subscribe(b, r.subscriber, r.eventType, r.listener);
      SubscribeAllKeys(b', regs[1..]);
      assert b'.subscriptions == b.subscriptions + {key};
      assert Keys(regs) == {key} + Keys(regs[1..]);
    }
  }

  /** Delivery order is subscription order: after any sequence of
      subscriptions, a type's listeners are the existing ones followed by
      the new first-time registrations for that type, in the order made. */
  lemma {:induction false} SubscribeAllOrder(b: Bus, regs: seq<Registration>, t: EventType)
    ensures ListenersFor(SubscribeAll(b, regs), t) == ListenersFor(b, t) + Kept(b.subscriptions, regs, t)
    decreases |regs|
  {
    if |regs| > 0 {
      var r := regs[0];
      var key := SubKey(r.subscriber, r.eventType);
      var b' := Subscribe(b, r.subscriber, r.eventType, r.listener);
      SubscribeAllOrder(b', regs[1..], t);
      var head := if key !in b.subscriptions && r.eventType == t then [r.listener] else [];
      assert ListenersFor(b', t) == ListenersFor(b, t) + head;
      assert b'.subscriptions == b.subscriptions + {key};
      assert Kept(b.subscriptions, regs, t) == head + Kept(b.subscriptions + {key}, regs[1..], t);
      AppendAssoc(ListenersFor(b, t), head, Kept(b'.subscriptions, regs[1..], t));
    }
  }

  /** The key a registration records. */
  function KeyOf(reg: Registration): SubKey
  {
    SubKey(reg.subscriber, reg.eventType)
  }

  /** The listeners registered for type `t`, in registration order. */
  function Handlers(regs: seq<Registration>, t: EventType): seq<Listener>
    decreases |regs|
  {
    if |regs| == 0 then []
    else (if regs[0].eventType == t then [regs[0].listener] else []) + Handlers(regs[1..], t)
  }

  lemma {:induction false} HandlersAppend(a: seq<Registration>, b: seq<Registration>, t: EventType)
    ensures Handlers(a + b, t) == Handlers(a, t) + Handlers(b, t)
    decreases |a|
  {
    if |a| > 0 {
      assert (a + b)[1..] == a[1..] + b;
      HandlersAppend(a[1..], b, t);
    } else {
      assert a + b == b;
    }
  }

  lemma {:induction false} KeysAppend(a: seq<Registration>, b: seq<Registration>)
    ensures Keys(a + b) == Keys(a) + Keys(b)
    decreases |a|
  {
    if |a| > 0 {
      assert (a + b)[1..] == a[1..] + b;
      KeysAppend(a[1..], b);
    } else {
      assert a + b == b;
    }
  }

  /** Registrations with distinct keys, none of them seen before, are all
      kept: every one of them reaches its type's list. */
  lemma {:induction false} KeptFresh(seen: set<SubKey>, regs: seq<Registration>, t: EventType)
    requires forall i :: 0 <= i < |regs| ==> KeyOf(regs[i]) !in seen
    requires forall i, j :: 0 <= i < j < |regs| ==> KeyOf(regs[i]) != KeyOf(regs[j])
    ensures Kept(seen, regs, t) == Handlers(regs, t)
    decreases |regs|
  {
    if |regs| > 0 {
      var rest := regs[1..];
      assert forall i :: 0 <= i < |rest| ==> rest[i] == regs[i + 1];
      KeptFresh(seen + {KeyOf(regs[0])}, rest, t);
    }
  }

  /** Re-subscribing keys that are all already present changes nothing. */
  lemma {:induction false} ResubscribeNoOp(b: Bus, regs: seq<Registration>)
    requires Keys(regs) <= b.subscriptions
    ensures SubscribeAll(b, regs) == b
    decreases |regs|
  {
    if |regs| > 0 {
      ResubscribeNoOp(b, regs[1..]);
    }
  }
}
