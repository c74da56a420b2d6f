/** `MyList`: a list that broadcasts one message after each successful
    `append` or item assignment. Python builds it from `UserList` and
    `Observable` by multiple inheritance; here the list holds its subject. */
module MyLists {
  import opened PyList
  import opened Observers

  /** The key and value of one `__setitem__` call: an integer index with one
      item, or a step-1 slice `[lo:hi]` (either bound may be omitted) with the
      replacement items. */
  datatype Assignment<T> =
    | At(index: int, item: T)
    | Range(lo: Option<int>, hi: Option<int>, items: seq<T>)

  /** What a `MyList` broadcasts: "<item> added to list", or
      "item[<key>] changed to <value>" with the key and value exactly as the
      caller gave them. */
  datatype Message<T> = Added(item: T) | Changed(assignment: Assignment<T>)

  /** The effect of `__setitem__` on the elements. Only an index outside the
      list fails; a slice assignment always succeeds. */
  function Assign<T>(s: seq<T>, a: Assignment<T>): (r: Result<seq<T>>)
    ensures r.Err? <==> a.At? && NormalizeIndex(a.index, |s|).None?
    ensures r.Err? ==> r.error == IndexError
    ensures r.Ok? && a.At? ==>
      var k := NormalizeIndex(a.index, |s|).value;
      |r.value| == |s| && r.value[k] == a.item &&
      forall j :: 0 <= j < |s| && j != k ==> r.value[j] == s[j]
    ensures r.Ok? && a.Range? ==>
      var (lo, hi) := SliceRange(a.lo, a.hi, |s|);
      r.value == s[..lo] + a.items + s[hi..] &&
      |r.value| == |s| - (hi - lo) + |a.items|
  {
    match a
    case At(i, v) => SetIndex(s, i, v)
    case Range(lo, hi, vs) =>
      SetSliceEffect(s, lo, hi, vs);
      Ok(SetSlice(s, lo, hi, vs))
  }

  /** The `update` calls in `log` as (observer title, message) pairs. */
  function Trace<M>(log: seq<Delivery<M>>): seq<(string, M)>
  {
    seq(|log|, i requires 0 <= i < |log| => (log[i].observer.title, log[i].message))
  }

  /** What one notification shows, by observer title: the message once per
      registration, in attachment order. */
  lemma TraceBroadcast<M>(observers: seq<Observer>, m: M)
    ensures Trace(Broadcast(observers, m))
         == seq(|observers|, i requires 0 <= i < |observers| => (observers[i].title, m))
  {
    BroadcastAt(observers, m);
  }

  class MyList<T> {
    /** The elements (`UserList.data`). */
    var data: seq<T>
    /** The `Observable` part of the object. */
    const subject: Observable<Message<T>>

    /** `MyList(*iterable)`: copies the elements, starts with no observers
        and notifies nobody. */
    constructor (initial: seq<T>)
      ensures data == initial
      ensures fresh(subject) && subject.observers == [] && subject.log == []
    {
      data := initial;
      subject := new Observable();
    }

    /** The inherited `attach`. */
    method Attach(o: Observer)
      modifies subject
      ensures subject.observers == old(subject.observers) + [o]
      ensures subject.log == old(subject.log)
    {
      subject.Attach(o);
    }

    /** The inherited `detach`. */
    method Detach(o: Observer) returns (r: Outcome)
      modifies subject
      ensures r == (if o in old(subject.observers) then Pass else Fail(ValueError))
      ensures r.Pass? ==> subject.observers == RemoveFirst(old(subject.observers), o)
      ensures r.Fail? ==> subject.observers == old(subject.observers)
      ensures subject.log == old(subject.log)
    {
      r := subject.Detach(o);
    }

    /** `append`: adds `x` at the end, then notifies every attached observer
        once per registration with `Added(x)`. */
    method Append(x: T)
      modifies this, subject
      ensures data == old(data) + [x]
      ensures subject.observers == old(subject.observers)
      ensures subject.log == old(subject.log) + Broadcast(subject.observers, Added(x))
    {
      data := data + [x];
      subject.Notify(Added(x));
    }

    /** `__setitem__`: applies the assignment, then notifies with
        `Changed(a)`; an index out of range raises IndexError before anything
        changes, so nobody is notified. */
    method SetItem(a: Assignment<T>) returns (r: Outcome)
      modifies this, subject
      ensures subject.observers == old(subject.observers)
      ensures match Assign(old(data), a)
        case Ok(s) =>
          r == Pass && data == s &&
          subject.log == old(subject.log) + Broadcast(subject.observers, Changed(a))
        case Err(e) =>
          r == Fail(e) && data == old(data) && subject.log == old(subject.log)
    {
      match Assign(data, a)
      case Err(e) =>
        r := Fail(e);
      case Ok(s) =>
        data := s;
        subject.Notify(Changed(a));
        r := Pass;
    }
  }

  /** The first half of the module-level demonstration: two observers on
      the list 1..5, which then gets 23 appended. */
  method DemoAppend() returns (elements: seq<int>, trace: seq<(string, Message<int>)>)
    ensures elements == [1, 2, 3, 4, 5, 23]
    ensures trace == [("Observer1", Added(23)), ("Observer2", Added(23))]
  {
    var observer1 := new Observer("Observer1", ListsObserver);
    var observer2 := new Observer("Observer2", UpdateGUIListObserver);
    var list1 := new MyList([1, 2, 3, 4, 5]);
    list1.Attach(observer1);
    list1.Attach(observer2);
    list1.Append(23);
    assert list1.subject.log == Broadcast([observer1, observer2], Added(23));
    TraceBroadcast([observer1, observer2], Added(23));
    elements, trace := list1.data, Trace(list1.subject.log);
  }

  /** `[5:] = "John!"` on the characters of "helloWorld!". */
  lemma SliceDemoResult()
    ensures Assign("helloWorld!", Range(Some(5), None, "John!")) == Ok("helloJohn!")
  {
    var s := "helloWorld!";
    assert SliceRange(Some(5), None, |s|) == (5, 11);
    assert s[..5] == "hello" && s[11..] == [];
    assert SetSlice(s, Some(5), None, "John!") == "hello" + "John!" + [];
    assert "hello" + "John!" + [] == "helloJohn!";
  }

  /** The second half: the same two observers on the 11 characters of
      "helloWorld!", whose tail from index 5 is then replaced by "John!". */
  method DemoSlice() returns (elements: seq<char>, trace: seq<(string, Message<char>)>)
    ensures elements == "helloJohn!" && |elements| == 10
    ensures trace == [("Observer1", Changed(Range(Some(5), None, "John!"))),
                      ("Observer2", Changed(Range(Some(5), None, "John!")))]
  {
    var observer1 := new Observer("Observer1", ListsObserver);
    var observer2 := new Observer("Observer2", UpdateGUIListObserver);
    var list2 := new MyList("helloWorld!");
    list2.Attach(observer1);
    list2.Attach(observer2);
    var key := Range(Some(5), None, "John!");
    var r := list2.SetItem(key);
    SliceDemoResult();
    assert list2.subject.log == Broadcast([observer1, observer2], Changed(key));
    TraceBroadcast([observer1, observer2], Changed(key));
    elements, trace := list2.data, Trace(list2.subject.log);
  }

  /** Registrations are not deduplicated and detach fails on an observer that
      is not attached: attach A twice and B once, detach B, detach B again,
      append 7. */
  method RegistrationScenario() returns (second: Outcome, trace: seq<(string, Message<int>)>)
    ensures second == Fail(ValueError)
    ensures trace == [("A", Added(7)), ("A", Added(7))]
  {
    var a := new Observer("A", ListsObserver);
    var b := new Observer("B", UpdateGUIListObserver);
    var list := new MyList([]);
    list.Attach(a);
    list.Attach(a);
    list.Attach(b);
    assert list.subject.observers == [a, a, b];
    var first := list.Detach(b);
    RemoveFirstIsSplice([a, a, b], b, 2);
    assert list.subject.observers == [a, a];
    second := list.Detach(b);
    list.Append(7);
    assert list.subject.log == Broadcast([a, a], Added(7));
    TraceBroadcast([a, a], Added(7));
    trace := Trace(list.subject.log);
  }
}
