/** The parts of Python's built-in list that the observer example relies on:
    `list.remove` (used by `Observable.detach`) and `list.__setitem__` with an
    integer index or a step-1 slice (used by `MyList.__setitem__` through
    `UserList`). Python's exceptions become `Error` values. */
module PyList {

  datatype Option<T> = None | Some(value: T)

  /** The exceptions the modelled list operations can raise. */
  datatype Error =
    | ValueError   // list.remove(x): x not in list
    | IndexError   // list[i] = v: list assignment index out of range

  datatype Outcome = Pass | Fail(error: Error)

  datatype Result<T> = Ok(value: T) | Err(error: Error)

  /** Number of entries of `s` equal to `x`. */
  function Count<X(==)>(s: seq<X>, x: X): nat
  {
    if s == [] then 0 else (if s[0] == x then 1 else 0) + Count(s[1..], x)
  }

  lemma {:induction false} CountAppend<X>(s: seq<X>, t: seq<X>, x: X)
    ensures Count(s + t, x) == Count(s, x) + Count(t, x)
  {
    if s == [] {
      assert s + t == t;
    } else {
      assert (s + t)[1..] == s[1..] + t;
      CountAppend(s[1..], t, x);
    }
  }

  lemma {:induction false} CountPositive<X>(s: seq<X>, x: X)
    ensures x in s <==> Count(s, x) > 0
  {
    if s != [] {
      CountPositive(s[1..], x);
      assert s == [s[0]] + s[1..];
    }
  }

  /** Position of the first entry of `s` equal to `x`: the entry `list.remove`
      deletes. */
  function FirstIndex<X(==)>(s: seq<X>, x: X): (k: nat)
    requires x in s
    ensures k < |s| && s[k] == x
    ensures forall j :: 0 <= j < k ==> s[j] != x
  {
    if s[0] == x then 0
    else
      assert x in s[1..] by { assert s == [s[0]] + s[1..]; }
      1 + FirstIndex(s[1..], x)
  }

  /** `list.remove(x)` on a list that contains `x`: the first equal entry is
      dropped, everything else keeps its order. */
  function RemoveFirst<X(==)>(s: seq<X>, x: X): seq<X>
    requires x in s
  {
    if s[0] == x then s[1..]
    else
      assert x in s[1..] by { assert s == [s[0]] + s[1..]; }
      [s[0]] + RemoveFirst(s[1..], x)
  }

  /** Removing `x` cuts out exactly the entry at its first position `k`. */
  lemma {:induction false} RemoveFirstIsSplice<X>(s: seq<X>, x: X, k: nat)
    requires k < |s| && s[k] == x
    requires forall j :: 0 <= j < k ==> s[j] != x
    ensures RemoveFirst(s, x) == s[..k] + s[k + 1..]
  {
    if k > 0 {
      var t := s[1..];
      RemoveFirstIsSplice(t, x, k - 1);
      assert s[..k] == [s[0]] + t[..k - 1];
      assert s[k + 1..] == t[k..];
    }
  }

  /** `list.remove(x)` on a list that contains `x` deletes the entry at
      `FirstIndex(s, x)` and nothing else. */
  lemma RemoveFirstCutsFirst<X>(s: seq<X>, x: X)
    requires x in s
    ensures var k := FirstIndex(s, x);
      RemoveFirst(s, x) == s[..k] + s[k + 1..]
  {
    RemoveFirstIsSplice(s, x, FirstIndex(s, x));
  }

  /** Removing `x` takes one registration of `x` away and leaves every other
      value's multiplicity alone. */
  lemma {:induction false} RemoveFirstCount<X>(s: seq<X>, x: X, y: X)
    requires x in s
    ensures |RemoveFirst(s, x)| == |s| - 1
    ensures Count(RemoveFirst(s, x), y) == Count(s, y) - (if y == x then 1 else 0)
  {
    if s[0] != x {
      assert x in s[1..] by { assert s == [s[0]] + s[1..]; }
      RemoveFirstCount(s[1..], x, y);
      assert ([s[0]] + RemoveFirst(s[1..], x))[1..] == RemoveFirst(s[1..], x);
    }
  }

  /** Python's normalisation of an integer subscript: a negative index counts
      from the end; anything outside `-n <= i < n` has no position. */
  function NormalizeIndex(i: int, n: nat): (r: Option<nat>)
    ensures r.Some? <==> -(n as int) <= i < n
    ensures r.Some? ==> r.value < n && r.value == (if i < 0 then n + i else i)
  {
    if 0 <= i < n then Some(i)
    else if -(n as int) <= i < 0 then Some(i + n)
    else None
  }

  /** `s[i] = v`: replaces the element at the normalised position, or raises
      IndexError without touching the list. */
  function SetIndex<T>(s: seq<T>, i: int, v: T): (r: Result<seq<T>>)
    ensures r.Err? <==> NormalizeIndex(i, |s|).None?
    ensures r.Err? ==> r.error == IndexError
    ensures r.Ok? ==>
      var k := NormalizeIndex(i, |s|).value;
      |r.value| == |s| && r.value[k] == v &&
      forall j :: 0 <= j < |s| && j != k ==> r.value[j] == s[j]
  {
    match NormalizeIndex(i, |s|)
    case None => Err(IndexError)
    case Some(k) => Ok(s[k := v])
  }

  /** One bound of a step-1 slice after Python's adjustment: an omitted bound
      takes `dflt`, a negative one counts from the end and is clamped at 0, one
      past the end is clamped at `n`. */
  function SliceBound(b: Option<int>, dflt: nat, n: nat): (r: nat)
    requires dflt <= n
    ensures r <= n
    ensures b.None? ==> r == dflt
    ensures b.Some? && 0 <= b.value <= n ==> r == b.value
    ensures b.Some? && -(n as int) <= b.value < 0 ==> r == b.value + n
    ensures b.Some? && b.value < -(n as int) ==> r == 0
    ensures b.Some? && b.value > n ==> r == n
  {
    match b
    case None => dflt
    case Some(x) =>
      if x < 0 then (if x + n < 0 then 0 else x + n)
      else if x > n then n
      else x
  }

  /** The range `s[lo:hi]` selects: its start, and its end, which is never
      before its start (an empty range at `lo` when `hi` falls before it). */
  function SliceRange(lo: Option<int>, hi: Option<int>, n: nat): (r: (nat, nat))
    ensures r.0 <= r.1 <= n
    ensures r.0 == SliceBound(lo, 0, n)
    ensures r.1 >= SliceBound(hi, n, n)
    ensures r.1 == r.0 || r.1 == SliceBound(hi, n, n)
  {
    var a := SliceBound(lo, 0, n);
    var b := SliceBound(hi, n, n);
    (a, if b < a then a else b)
  }

  /** `s[lo:hi] = vs` with step 1: the selected range is replaced by `vs`,
      which may have a different length. It never raises. */
  function SetSlice<T>(s: seq<T>, lo: Option<int>, hi: Option<int>, vs: seq<T>): seq<T>
  {
    var (a, b) := SliceRange(lo, hi, |s|);
    s[..a] + vs + s[b..]
  }

  /** What slice assignment does to the list: the prefix before the range
      and the suffix after it survive unchanged, `vs` sits between them, and
      the length changes by `|vs|` minus the width of the range. */
  lemma SetSliceEffect<T>(s: seq<T>, lo: Option<int>, hi: Option<int>, vs: seq<T>)
    ensures var (a, b) := SliceRange(lo, hi, |s|);
      var r := SetSlice(s, lo, hi, vs);
      |r| == |s| - (b - a) + |vs| &&
      r[..a] == s[..a] &&
      r[a..a + |vs|] == vs &&
      r[a + |vs|..] == s[b..]
  {
  }

  /** With both bounds given and inside the list, `s[lo:hi] = vs` is the
      prefix up to `lo`, then `vs`, then the suffix from `hi`. */
  lemma SetSliceInRange<T>(s: seq<T>, lo: int, hi: int, vs: seq<T>)
    requires 0 <= lo <= hi <= |s|
    ensures SetSlice(s, Some(lo), Some(hi), vs) == s[..lo] + vs + s[hi..]
  {
  }

  /** With the end omitted, `s[lo:] = vs` replaces the whole tail from `lo`. */
  lemma SetSliceTail<T>(s: seq<T>, lo: int, vs: seq<T>)
    requires 0 <= lo <= |s|
    ensures SetSlice(s, Some(lo), None, vs) == s[..lo] + vs
  {
    assert s[|s|..] == [];
  }

  /** Assigning a slice to its own contents leaves the list as it was. */
  lemma SetSliceSame<T>(s: seq<T>, lo: Option<int>, hi: Option<int>)
    ensures var (a, b) := SliceRange(lo, hi, |s|);
      SetSlice(s, lo, hi, s[a..b]) == s
  {
  }
}
