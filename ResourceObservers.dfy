/**
 * The resource manager's observer registry: observers held in a map from
 * integer keys, a key handed back by insert so that the observer can later be
 * erased, and a call operator that notifies every registered observer.
 *
 * An observer is a callable; here it is named by a handle, and calling it is
 * recorded as a Notification in the registry's log of calls, in call order.
 */
module ResourceObservers {
  import opened Common

  /** The events the resource manager reports. */
  datatype EventType = Added | Modified | Removed

  /** A registered callable, named by a handle. */
  type Observer = nat

  /** One call made by the registry: the observer with its arguments, or its initial update. */
  datatype Notification =
    | Notified(key: int, observer: Observer, resource: Id, event: EventType)
    | Initialized(observer: Observer)

  /** A non-empty key set has a member. */
  lemma HasMember(keys: set<int>)
    requires keys != {}
    ensures exists k :: k in keys
  {
    assert (forall k :: k !in keys) ==> keys == {};
  }

  /** The least key of a non-empty key set. */
  ghost function MinKey(keys: set<int>): (m: int)
    requires keys != {}
    ensures m in keys && forall x :: x in keys ==> m <= x
    decreases |keys|
  {
    HasMember(keys);
    var k :| k in keys;
    var others := keys - {k};
    assert forall x :: x in keys ==> x == k || x in others;
    if others == {} then k
    else
      var rest := MinKey(others);
      if k < rest then k else rest
  }

  /** The greatest key of a non-empty key set. */
  ghost function MaxKey(keys: set<int>): (m: int)
    requires keys != {}
    ensures m in keys && forall x :: x in keys ==> x <= m
    decreases |keys|
  {
    HasMember(keys);
    var k :| k in keys;
    var others := keys - {k};
    assert forall x :: x in keys ==> x == k || x in others;
    if others == {} then k
    else
      var rest := MaxKey(others);
      if k > rest then k else rest
  }

  /** The keys in the order a std::map visits them: ascending. */
  ghost function InKeyOrder(keys: set<int>): seq<int>
    decreases |keys|
  {
    if keys == {} then []
    else [MinKey(keys)] + InKeyOrder(keys - {MinKey(keys)})
  }

  /** Ascending order lists every key exactly once. */
  lemma {:induction false} InKeyOrderMembers(keys: set<int>)
    ensures |InKeyOrder(keys)| == |keys|
    ensures forall k :: k in keys <==> k in InKeyOrder(keys)
    decreases |keys|
  {
    if keys != {} {
      InKeyOrderMembers(keys - {MinKey(keys)});
    }
  }

  /** Ascending order is strictly increasing. */
  lemma {:induction false} InKeyOrderAscending(keys: set<int>)
    ensures forall i, j :: 0 <= i < j < |InKeyOrder(keys)| ==> InKeyOrder(keys)[i] < InKeyOrder(keys)[j]
    decreases |keys|
  {
    if keys != {} {
      var m := MinKey(keys);
      InKeyOrderMembers(keys - {m});
      InKeyOrderAscending(keys - {m});
      var rest := InKeyOrder(keys - {m});
      assert InKeyOrder(keys) == [m] + rest;
      forall i, j | 0 <= i < j < |InKeyOrder(keys)|
        ensures InKeyOrder(keys)[i] < InKeyOrder(keys)[j]
      {
        if i == 0 {
          assert rest[j - 1] in keys - {m};
        } else {
          assert rest[i - 1] < rest[j - 1];
        }
      }
    }
  }

  /** Ascending order lists every key exactly once, smallest first. */
  lemma InKeyOrderIsSorted(keys: set<int>)
    ensures var order := InKeyOrder(keys);
            && |order| == |keys|
            && (forall k :: k in keys <==> k in order)
            && (forall i, j :: 0 <= i < j < |order| ==> order[i] < order[j])
  {
    InKeyOrderMembers(keys);
    InKeyOrderAscending(keys);
  }

  /** The notifications the call operator makes for the given keys, in that order. */
  function Notifications(observers: map<int, Observer>, order: seq<int>, resource: Id, event: EventType)
    : (ns: seq<Notification>)
    requires forall i :: 0 <= i < |order| ==> order[i] in observers
    ensures |ns| == |order|
    ensures forall i :: 0 <= i < |order| ==> ns[i] == Notified(order[i], observers[order[i]], resource, event)
  {
    if order == [] then []
    else [Notified(order[0], observers[order[0]], resource, event)]
         + Notifications(observers, order[1..], resource, event)
  }

  /** The notifications for the observers under the given keys, in ascending key order. */
  ghost function Announce(observers: map<int, Observer>, keys: set<int>, resource: Id, event: EventType)
    : seq<Notification>
    requires keys <= observers.Keys
  {
    InKeyOrderIsSorted(keys);
    Notifications(observers, InKeyOrder(keys), resource, event)
  }

  /** Everything one call of the operator makes. */
  ghost function Broadcast(observers: map<int, Observer>, resource: Id, event: EventType): seq<Notification>
  {
    Announce(observers, observers.Keys, resource, event)
  }

  /** Announcing to a key set starts with its least key. */
  lemma AnnounceStep(observers: map<int, Observer>, keys: set<int>, resource: Id, event: EventType)
    requires keys != {} && keys <= observers.Keys
    ensures var m := MinKey(keys);
            Announce(observers, keys, resource, event)
            == [Notified(m, observers[m], resource, event)] + Announce(observers, keys - {m}, resource, event)
  {
    var m := MinKey(keys);
    var rest := InKeyOrder(keys - {m});
    InKeyOrderIsSorted(keys - {m});
    assert InKeyOrder(keys) == [m] + rest;
    assert ([m] + rest)[1..] == rest;
  }

  /** Notifying along a strictly increasing key order notifies each listed key once, in that order. */
  lemma NotificationsFollowOrder(observers: map<int, Observer>, order: seq<int>, resource: Id, event: EventType)
    requires forall i :: 0 <= i < |order| ==> order[i] in observers
    requires forall i, j :: 0 <= i < j < |order| ==> order[i] < order[j]
    ensures var ns := Notifications(observers, order, resource, event);
            && (forall n :: n in ns ==> n.Notified? && n.key in observers && n == Notified(n.key, observers[n.key], resource, event))
            && (forall i :: 0 <= i < |order| ==> Notified(order[i], observers[order[i]], resource, event) in ns)
            && (forall i, j :: 0 <= i < j < |ns| ==> ns[i].key < ns[j].key)
  {
    var ns := Notifications(observers, order, resource, event);
    forall n | n in ns
      ensures n.Notified? && n.key in observers && n == Notified(n.key, observers[n.key], resource, event)
    {
      var i :| 0 <= i < |ns| && ns[i] == n;
      assert n == Notified(order[i], observers[order[i]], resource, event);
    }
  }

  /** Each registered observer is notified exactly once, and the notifications go in ascending key order. */
  lemma BroadcastReachesEveryObserver(observers: map<int, Observer>, resource: Id, event: EventType)
    ensures var ns := Broadcast(observers, resource, event);
            && |ns| == |observers|
            && (forall n :: n in ns ==> n.Notified? && n.key in observers && n == Notified(n.key, observers[n.key], resource, event))
            && (forall k :: k in observers ==> Notified(k, observers[k], resource, event) in ns)
            && (forall i, j :: 0 <= i < j < |ns| ==> ns[i].key < ns[j].key)
  {
    InKeyOrderIsSorted(observers.Keys);
    var order := InKeyOrder(observers.Keys);
    NotificationsFollowOrder(observers, order, resource, event);
    assert |order| == |observers.Keys| == |observers|;
    forall k | k in observers
      ensures Notified(k, observers[k], resource, event) in Broadcast(observers, resource, event)
    {
      var i :| 0 <= i < |order| && order[i] == k;
    }
  }

  /** The key insert hands out: one past the greatest key in use, or 0 when there is none. */
  ghost function NextKey(observers: map<int, Observer>): (key: int)
    ensures key !in observers
    ensures forall k :: k in observers ==> k < key
  {
    if observers == map[] then 0 else MaxKey(observers.Keys) + 1
  }

  /** Erasing the key that insert returned gives back the registry as it was. */
  lemma InsertThenErase(observers: map<int, Observer>, o: Observer)
    ensures var key := NextKey(observers);
            observers[key := o] - {key} == observers
  {
    var key := NextKey(observers);
    assert key !in observers;
  }

  class Observers {
    /** The registered observers by key. */
    var observers: map<int, Observer>
    /** The calls the registry has made, oldest first. */
    var calls: seq<Notification>
    /** Whether an initializer was given; it gives a newly inserted observer its initial update. */
    const hasInitializer: bool

    constructor (hasInitializer: bool)
      ensures observers == map[] && calls == [] && this.hasInitializer == hasInitializer
    {
      observers := map[];
      calls := [];
      this.hasInitializer := hasInitializer;
    }

    /** operator(): notify every registered observer, in ascending key order. */
    method Notify(resource: Id, event: EventType)
      modifies this`calls
      ensures calls == old(calls) + Broadcast(observers, resource, event)
    {
      var registered := observers;
      var remaining := registered.Keys;
      while remaining != {}
        invariant remaining <= registered.Keys
        invariant calls + Announce(registered, remaining, resource, event)
               == old(calls) + Broadcast(registered, resource, event)
        decreases remaining
      {
        var k := LeastOf(remaining);
        AnnounceStep(registered, remaining, resource, event);
        ghost var later := Announce(registered, remaining - {k}, resource, event);
        var n := Notified(k, registered[k], resource, event);
        assert calls + ([n] + later) == (calls + [n]) + later;
        calls := calls + [n];
        remaining := remaining - {k};
      }
    }

    /** insert: register the observer under a fresh key, giving it its initial update when asked. */
    method Insert(observer: Observer, immediatelyUpdate: bool := true) returns (key: int)
      modifies this
      ensures key == NextKey(old(observers)) && key !in old(observers)
      ensures observers == old(observers)[key := observer]
      ensures calls == old(calls) + (if immediatelyUpdate && hasInitializer then [Initialized(observer)] else [])
    {
      if observers == map[] {
        key := 0;
      } else {
        var top := GreatestOf(observers.Keys);
        key := top + 1;
      }
      observers := observers[key := observer];
      if immediatelyUpdate && hasInitializer {
        calls := calls + [Initialized(observer)];
      }
    }

    /** erase: unregister the key and report how many observers remain. */
    method Erase(key: int) returns (remaining: nat)
      modifies this`observers
      ensures observers == old(observers) - {key}
      ensures remaining == |observers|
      ensures remaining == if key in old(observers) then |old(observers)| - 1 else |old(observers)|
    {
      observers := observers - {key};
      remaining := |observers|;
    }

    /** find: the observer under the key, or null when there is none. */
    function Find(key: int): (o: Option<Observer>)
      reads this`observers
      ensures o.Some? <==> key in observers
      ensures o.Some? ==> o.value == observers[key]
    {
      if key in observers then Some(observers[key]) else None
    }
  }

  /** The least element of a non-empty key set, found by the caller's iteration. */
  method LeastOf(keys: set<int>) returns (m: int)
    requires keys != {}
    ensures m == MinKey(keys)
  {
    ghost var w := MinKey(keys);
    assert w in keys && forall k :: k in keys ==> w <= k;
    m :| m in keys && forall k :: k in keys ==> m <= k;
    assert MinKey(keys) <= m;
  }

  /** The greatest element of a non-empty key set. */
  method GreatestOf(keys: set<int>) returns (m: int)
    requires keys != {}
    ensures m == MaxKey(keys)
  {
    ghost var w := MaxKey(keys);
    assert w in keys && forall k :: k in keys ==> k <= w;
    m :| m in keys && forall k :: k in keys ==> k <= m;
    assert m <= MaxKey(keys);
  }
}
