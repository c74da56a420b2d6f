/** The subject side of the observer pattern: observers, the record of the
    `update` calls a subject makes, and the `Observable` class that keeps the
    ordered list of attached observers. */
module Observers {
  import opened PyList

  /** Which concrete observer class an observer is: the abstract base whose
      `update` does nothing, or one of the two printing variants. */
  datatype Kind = Base | ListsObserver | UpdateGUIListObserver

  /** An observer has a title and no mutable state; two observers are the
      same only when they are the same object, as with Python's default
      equality. */
  class Observer {
    const title: string
    const kind: Kind

    constructor (title: string, kind: Kind)
      ensures this.title == title && this.kind == kind
    {
      this.title := title;
      this.kind := kind;
    }
  }

  /** One call `observer.update(message)`. */
  datatype Delivery<M> = Delivery(observer: Observer, message: M)

  /** The `update` calls one notification makes, in the order it makes them. */
  function Broadcast<M>(observers: seq<Observer>, m: M): seq<Delivery<M>>
  {
    if observers == [] then [] else [Delivery(observers[0], m)] + Broadcast(observers[1..], m)
  }

  /** The messages `o` received in `log`, in the order it received them. */
  function ReceivedBy<M>(log: seq<Delivery<M>>, o: Observer): seq<M>
  {
    if log == [] then []
    else (if log[0].observer == o then [log[0].message] else []) + ReceivedBy(log[1..], o)
  }

  /** `n` copies of `m`. */
  function Repeat<M>(m: M, n: nat): (r: seq<M>)
    ensures |r| == n && forall i :: 0 <= i < n ==> r[i] == m
  {
    if n == 0 then [] else [m] + Repeat(m, n - 1)
  }

  /** A notification is one delivery of `m` per entry of the observer list,
      the i-th to the i-th attached observer. */
  lemma {:induction false} BroadcastAt<M>(observers: seq<Observer>, m: M)
    ensures |Broadcast(observers, m)| == |observers|
    ensures forall i :: 0 <= i < |observers| ==> Broadcast(observers, m)[i] == Delivery(observers[i], m)
  {
    if observers != [] {
      BroadcastAt(observers[1..], m);
    }
  }

  /** Notifying a list of observers is notifying its parts one after the
      other. */
  lemma {:induction false} BroadcastConcat<M>(s: seq<Observer>, t: seq<Observer>, m: M)
    ensures Broadcast(s + t, m) == Broadcast(s, m) + Broadcast(t, m)
  {
    if s == [] {
      assert s + t == t;
    } else {
      assert (s + t)[1..] == s[1..] + t;
      BroadcastConcat(s[1..], t, m);
    }
  }

  lemma {:induction false} ReceivedByConcat<M>(a: seq<Delivery<M>>, b: seq<Delivery<M>>, o: Observer)
    ensures ReceivedBy(a + b, o) == ReceivedBy(a, o) + ReceivedBy(b, o)
  {
    if a == [] {
      assert a + b == b;
    } else {
      var head := if a[0].observer == o then [a[0].message] else [];
      assert (a + b)[0] == a[0] && (a + b)[1..] == a[1..] + b;
      calc {
        ReceivedBy(a + b, o);
        head + ReceivedBy(a[1..] + b, o);
        { ReceivedByConcat(a[1..], b, o); }
        head + (ReceivedBy(a[1..], o) + ReceivedBy(b, o));
        ReceivedBy(a, o) + ReceivedBy(b, o);
      }
    }
  }

  /** Each observer receives one copy of the message per time it is attached:
      none when it is not attached, two when it was attached twice. */
  lemma {:induction false} BroadcastReceived<M>(observers: seq<Observer>, m: M, o: Observer)
    ensures ReceivedBy(Broadcast(observers, m), o) == Repeat(m, Count(observers, o))
  {
    if observers != [] {
      BroadcastReceived(observers[1..], m, o);
      var b := Broadcast(observers, m);
      assert b[0] == Delivery(observers[0], m) && b[1..] == Broadcast(observers[1..], m);
    }
  }

  /** What an observer has received after one more notification: what it had
      before, then the new message once per registration. */
  lemma ReceivedAfterNotify<M>(log: seq<Delivery<M>>, observers: seq<Observer>, m: M, o: Observer)
    ensures ReceivedBy(log + Broadcast(observers, m), o)
         == ReceivedBy(log, o) + Repeat(m, Count(observers, o))
  {
    ReceivedByConcat(log, Broadcast(observers, m), o);
    BroadcastReceived(observers, m, o);
  }

  /** Attaching adds a registration and never merges it with an earlier one:
      the attached observer's multiplicity grows by one, nobody else's
      changes. */
  lemma AttachCount(observers: seq<Observer>, o: Observer, p: Observer)
    ensures Count(observers + [o], p) == Count(observers, p) + (if p == o then 1 else 0)
  {
    CountAppend(observers, [o], p);
    assert [o][1..] == [];
  }

  /** After `detach(o)`, later notifications reach `o` one time fewer (so not
      at all when it was attached once) and reach every other observer
      exactly as before. */
  lemma DetachThenBroadcast<M>(observers: seq<Observer>, o: Observer, m: M)
    requires o in observers
    ensures Count(observers, o) >= 1
    ensures ReceivedBy(Broadcast(RemoveFirst(observers, o), m), o)
         == Repeat(m, Count(observers, o) - 1)
    ensures forall p :: p != o ==>
      ReceivedBy(Broadcast(RemoveFirst(observers, o), m), p) == ReceivedBy(Broadcast(observers, m), p)
  {
    CountPositive(observers, o);
    RemoveFirstCount(observers, o, o);
    BroadcastReceived(RemoveFirst(observers, o), m, o);
    forall p | p != o
      ensures ReceivedBy(Broadcast(RemoveFirst(observers, o), m), p) == ReceivedBy(Broadcast(observers, m), p)
    {
      RemoveFirstCount(observers, o, p);
      BroadcastReceived(RemoveFirst(observers, o), m, p);
      BroadcastReceived(observers, m, p);
    }
  }

  /** A subject. `observers` is the list `_observers`; `log` records, in
      order, every `update` call this subject has made on an observer. */
  class Observable<M> {
    var observers: seq<Observer>
    var log: seq<Delivery<M>>

    constructor ()
      ensures observers == [] && log == []
    {
      observers := [];
      log := [];
    }

    /** The `observers` property: the current registration list. */
    function Observers(): seq<Observer>
      reads this
    {
      observers
    }

    /** `attach`: appends, without checking for an earlier registration. */
    method Attach(o: Observer)
      modifies this
      ensures observers == old(observers) + [o]
      ensures log == old(log)
    {
      observers := Observers() + [o];
    }

    /** `detach`: removes the first registration of `o`, or fails with
      ValueError, leaving the list alone, when `o` is not attached. */
    method Detach(o: Observer) returns (r: Outcome)
      modifies this
      ensures r == (if o in old(observers) then Pass else Fail(ValueError))
      ensures r.Pass? ==> observers == RemoveFirst(old(observers), o)
      ensures r.Fail? ==> observers == old(observers)
      ensures log == old(log)
    {
      if o in Observers() {
        observers := RemoveFirst(Observers(), o);
        r := Pass;
      } else {
        r := Fail(ValueError);
      }
    }

    /** `notify`: calls `update(m)` on every attached observer, in list
      order, before returning. */
    method Notify(m: M)
      modifies this
      ensures observers == old(observers)
      ensures log == old(log) + Broadcast(observers, m)
    {
      var i := 0;
      while i < |observers|
        invariant 0 <= i <= |observers|
        invariant observers == old(observers)
        invariant log == old(log) + Broadcast(observers[..i], m)
      {
        BroadcastConcat(observers[..i], [observers[i]], m);
        assert observers[..i + 1] == observers[..i] + [observers[i]];
        log := log + [Delivery(observers[i], m)];
        i := i + 1;
      }
      assert observers[..i] == observers;
    }
  }
}
