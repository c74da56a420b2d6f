# Observer pattern: an observable list

A model of `BehavioralPatterns/observer_pattern.py`. That file implements the Observer
pattern. An `Observable` keeps an ordered list of attached observers. `attach` appends
to that list and `detach` removes the first matching entry. `notify(message)` calls
`update(message)` on every attached observer, in list order. `MyList` is a `UserList`
that is also `Observable`: `append` and `__setitem__` first change the elements and
then notify one message describing the change.

The model has three modules:

- `PyList` (`pylist.dfy`) holds the Python list behaviour the file relies on:
  - `list.remove` on a list that contains the value, as `RemoveFirst` (the `ValueError`
    raised for an absent value is the `Fail(ValueError)` outcome of `Observable.Detach`);
  - integer-index assignment, as `SetIndex`, with negative indices counted from the end
    and `IndexError` outside the list;
  - step-1 slice assignment, as `SetSlice`. Omitted, negative and out-of-range bounds
    are clamped as CPython clamps them, and an end before the start selects an empty range.
- `Observers` (`observers.dfy`) holds the `Observer` objects, the `Observable` class and
  the delivery log. Each `update(message)` call is recorded as one
  `Delivery(observer, message)`, appended to the subject's `log`. Observers are objects
  compared by identity, as the code defines no `__eq__`: `list.remove` matches only the
  same object, so two observers with the same title are different.
- `MyLists` (`mylists.dfy`) holds the `MyList` class and the message datatype.
  `Added(item)` stands for `"<item> added to list"`. `Changed(assignment)` stands for
  `"item[<key>] changed to <value>"`, where the assignment is the key and value exactly
  as the caller passed them. The module also holds the file's module-level
  demonstration as a method with its outcome stated.

Python's multiple inheritance `MyList(UserList, Observable)` becomes composition here.
A `MyList` has its elements `data` and a `const subject: Observable<Message<T>>`, and its
`Attach`/`Detach` delegate to that subject.

## Model

| member | source | states |
|---|---|---|
| `PyList.FirstIndex` | BehavioralPatterns/observer_pattern.py:51-52 | the entry `remove` deletes is an equal entry, and no earlier entry is equal |
| `PyList.RemoveFirstIsSplice` | BehavioralPatterns/observer_pattern.py:51-52 | when `k` is the first position of `x`, `remove(x)` cuts out exactly the entry at `k`; everything before and after keeps its order |
| `PyList.RemoveFirstCutsFirst` | BehavioralPatterns/observer_pattern.py:51-52 | `remove(x)` deletes exactly the entry at the first position of `x` and keeps everything else in order |
| `PyList.RemoveFirstCount` | BehavioralPatterns/observer_pattern.py:51-52 | `remove(x)` shortens the list by one, lowers the multiplicity of `x` by one and leaves every other value's multiplicity alone |
| `PyList.NormalizeIndex` | BehavioralPatterns/observer_pattern.py:86-87 | an integer key has a position exactly when `-n <= i < n`; the position is below `n` and congruent to `i` modulo `n` |
| `PyList.SetIndex` | BehavioralPatterns/observer_pattern.py:86-87 | `s[i] = v` fails with IndexError exactly when `i` has no position; otherwise the length is kept, position `i` holds `v` and every other position is unchanged |
| `PyList.SliceBound` | BehavioralPatterns/observer_pattern.py:86-87 | an adjusted slice bound lies in `0..n`: an omitted bound takes its default, an in-range bound is kept, a negative bound of at least `-n` counts from the end, a bound below `-n` becomes 0 and one above `n` becomes `n` |
| `PyList.SliceRange` | BehavioralPatterns/observer_pattern.py:86-87 | the range a step-1 slice selects starts at the adjusted `lo` and ends at the larger of that start and the adjusted `hi`, with `start <= end <= n` |
| `PyList.SetSliceEffect` | BehavioralPatterns/observer_pattern.py:86-87 | `s[lo:hi] = vs` keeps the prefix before the range and the suffix after it and puts `vs` between them, so the new length is n minus the width of the range plus the length of `vs` |
| `PyList.SetSliceInRange` | BehavioralPatterns/observer_pattern.py:86-87 | with `0 <= lo <= hi <= n`, `s[lo:hi] = vs` gives the prefix up to `lo`, then `vs`, then the suffix from `hi` |
| `PyList.SetSliceTail` | BehavioralPatterns/observer_pattern.py:86-87 | with `0 <= lo <= n`, `s[lo:] = vs` gives the prefix up to `lo` followed by `vs` |
| `PyList.SetSliceSame` | BehavioralPatterns/observer_pattern.py:86-87 | assigning a slice its own contents leaves the list unchanged |
| `Observers.Observer.constructor` | BehavioralPatterns/observer_pattern.py:30-33 | an observer is created with the given title (and the concrete class it belongs to) |
| `Observers.BroadcastAt` | BehavioralPatterns/observer_pattern.py:54-56 | one notification makes exactly one delivery per entry of the observer list, with the i-th delivery going to the i-th attached observer |
| `Observers.BroadcastConcat` | BehavioralPatterns/observer_pattern.py:54-56 | notifying a list of observers delivers to its first part, then to its second part |
| `Observers.BroadcastReceived` | BehavioralPatterns/observer_pattern.py:48-56 | in one notification each observer receives the message once per registration: not at all when it is not attached, twice when it was attached twice |
| `Observers.ReceivedAfterNotify` | BehavioralPatterns/observer_pattern.py:54-56 | after a notification an observer has received what it had before, followed by the new message once per registration |
| `Observers.AttachCount` | BehavioralPatterns/observer_pattern.py:48-49 | attaching raises the attached observer's multiplicity by one and changes nobody else's; it does not deduplicate |
| `Observers.DetachThenBroadcast` | BehavioralPatterns/observer_pattern.py:51-56 | after `detach(o)`, later notifications reach `o` one time fewer, so never when it was attached once, and reach every other observer exactly as before |
| `Observers.Observable.constructor` | BehavioralPatterns/observer_pattern.py:41-42 | a new subject has no observers and has delivered nothing |
| `Observers.Observable.Attach` | BehavioralPatterns/observer_pattern.py:48-49 | the observer list becomes the old list with `o` appended at the end; nothing is delivered |
| `Observers.Observable.Detach` | BehavioralPatterns/observer_pattern.py:51-52 | succeeds exactly when `o` is attached, and then removes its first registration; otherwise fails with ValueError and leaves the list unchanged; nothing is delivered |
| `Observers.Observable.Notify` | BehavioralPatterns/observer_pattern.py:54-56 | the log grows by one delivery of `m` per registration, in list order, and the observer list is unchanged |
| `MyLists.Assign` | BehavioralPatterns/observer_pattern.py:86-87 | `__setitem__` fails, with IndexError, exactly for an integer key out of range; index assignment keeps the length, puts the item at the normalised position and leaves every other position unchanged; slice assignment gives the prefix before the selected range, the new items, then the suffix after it, so the length changes by the number of items minus the width of the range |
| `MyLists.MyList.constructor` | BehavioralPatterns/observer_pattern.py:75-77 | the elements are the given ones in order, the observer list is empty and nothing has been delivered |
| `MyLists.MyList.Attach` | BehavioralPatterns/observer_pattern.py:48-49 | appends `o` to the list's observers; nothing is delivered |
| `MyLists.MyList.Detach` | BehavioralPatterns/observer_pattern.py:51-52 | removes the first registration of `o`, or fails with ValueError when it is not attached, leaving the observers unchanged; nothing is delivered |
| `MyLists.MyList.Append` | BehavioralPatterns/observer_pattern.py:79-84 | the elements become `old + [x]`, and every registration receives one `Added(x)`, in attachment order |
| `MyLists.MyList.SetItem` | BehavioralPatterns/observer_pattern.py:86-91 | on success the elements become the result of the assignment, and every registration receives one `Changed(key, value)`; on an out-of-range index it fails with IndexError, with no mutation and no delivery |
| `MyLists.DemoAppend` | BehavioralPatterns/observer_pattern.py:93-99 | `[1,2,3,4,5]` becomes `[1,2,3,4,5,23]`, and Observer1 then Observer2 receive `Added(23)` |
| `MyLists.SliceDemoResult` | BehavioralPatterns/observer_pattern.py:101-104 | assigning "John!" to `[5:]` of the 11 characters of "helloWorld!" succeeds and gives "helloJohn!" |
| `MyLists.DemoSlice` | BehavioralPatterns/observer_pattern.py:101-104 | the list becomes the 10 characters of "helloJohn!", and Observer1 then Observer2 each receive that one change |
| `MyLists.RegistrationScenario` | BehavioralPatterns/observer_pattern.py:48-56 | an observer attached twice receives two copies of one append; a detached observer receives nothing; detaching it a second time fails with ValueError |

## Left out

- The console output of `MyListsObserver.update` and `UpdateGUIListObserver.update`
  (lines 61-69) is not modelled. Each `update` call is a recorded `Delivery`, and the
  observer's concrete class is kept only as its `kind`.
- The exact text of the messages (lines 83 and 90) and Python's `str()` of values are
  not modelled. The `Message` datatype carries the same information.
- The `observers` property (lines 44-46) is the function `Observable.Observers`. Python
  returns the live list, so a caller could mutate the registrations through it. That
  aliasing is not modelled.
- `MyList.Append`, `MyList.SetItem`: the contracts do not state that the mutation
  happens before the notification. In the model an observer receives only the message
  and cannot look at the list. The order is therefore kept only in the method bodies,
  which change `data` before calling `Notify`.
- `UserList` methods that `MyList` inherits without overriding are not modelled. These
  are the reads, `insert`, `extend`, `pop`, `__delitem__` and `__iadd__`, and their code
  is in the standard library. The reads change no state, so they cannot notify.
- Slices with a step other than 1, and the TypeError that slice assignment raises for
  a non-iterable value, are not modelled. Both are library behaviour.
- An observer whose `update` raises part-way through a broadcast is not modelled, and
  neither is one whose `update` attaches or detaches observers during a broadcast. In
  the model `update` only records a delivery.
- `MyList(*iterable)` takes its elements as separate arguments. The model takes them
  as one sequence.
