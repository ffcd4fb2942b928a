/** `com.mindplex.commons.collections.Iterators`: factories of small
    stateful iterators. Each anonymous `Iterator` class is a class here
    whose `Next` changes its fields as the Java one does, and whose ghost
    `Remaining()` (where the source determines it) is what the following
    `next()` calls will return. */
module Iterators {
  import opened Wrappers
  import opened JavaLang
  import opened ListSpec
  import AdvancedLists

  /** The message of every `NoSuchElementException` these iterators raise,
      except the sliding one. */
  const EMPTY: string := "Iterator is empty."

  /** An `int` that is not negative. */
  type Nat32 = i: int | 0 <= i <= 0x7fff_ffff

  /** An `int` step that is not zero. */
  type NonZero32 = x: int | -0x8000_0000 <= x <= 0x7fff_ffff && x != 0 witness 1

  /* ---------------- empty ---------------- */

  /** `empty()`: never has an element. */
  class EmptyIterator<E> {
    constructor ()
    {
    }

    method HasNext() returns (b: bool)
      ensures !b
    {
      return false;
    }

    method Next() returns (r: Result<E, Error>)
      ensures r == Failure(NoSuchElement(EMPTY))
    {
      return Failure(NoSuchElement(EMPTY));
    }
  }

  /* ---------------- single ---------------- */

  /** `single(element)`: `element` once. */
  class SingleIterator<E> {
    const element: E
    var more: bool

    constructor (element: E)
      ensures this.element == element && more
      ensures Remaining() == [element]
    {
      this.element := element;
      more := true;
    }

    ghost function Remaining(): seq<E>
      reads this
    {
      if more then [element] else []
    }

    method HasNext() returns (b: bool)
      ensures b <==> Remaining() != []
    {
      return more;
    }

    method Next() returns (r: Result<E, Error>)
      modifies this
      ensures old(more) ==> r == Success(element)
      ensures !old(more) ==> r == Failure(NoSuchElement(EMPTY))
      ensures !more && Remaining() == []
    {
      if more {
        more := false;
        return Success(element);
      }
      return Failure(NoSuchElement(EMPTY));
    }
  }

  /* ---------------- fill ---------------- */

  /** `fill(n, computation)`: `n` values (none for `n <= 0`), each what the
      computation returns on that call, passed to `Next` as `computed`. */
  class FillIterator<E> {
    const n: Int32
    var index: Nat32

    constructor (n: Int32)
      ensures this.n == n && index == 0
      ensures Left() == Max(n, 0)
    {
      this.n := n;
      index := 0;
    }

    /** How many more values `next()` will return. */
    function Left(): nat
      reads this
    {
      Max(n - index, 0)
    }

    method HasNext() returns (b: bool)
      ensures b <==> index < n
      ensures b <==> Left() > 0
    {
      return index < n;
    }

    method Next(computed: E) returns (r: Result<E, Error>)
      modifies this
      ensures old(Left()) > 0 ==> r == Success(computed) && Left() == old(Left()) - 1
      ensures old(Left()) == 0 ==> r == Failure(NoSuchElement(EMPTY)) && index == old(index)
    {
      if index < n {
        index := index + 1;
        return Success(computed);
      }
      return Failure(NoSuchElement(EMPTY));
    }
  }

  /* ---------------- tabulate ---------------- */

  /** `f(from), ..., f(n - 1)`. */
  function Tabulated<E>(f: Int32 -> E, from: Nat32, n: Int32): (r: seq<E>)
    ensures |r| == Max(n - from, 0)
    ensures forall k :: 0 <= k < |r| ==> r[k] == f(from + k)
  {
    seq(Max(n - from, 0), k requires 0 <= k < Max(n - from, 0) => f(from + k))
  }

  /** `tabulate(n, func)`: `f(0), ..., f(n - 1)`. */
  class TabulateIterator<E> {
    const n: Int32
    const f: Int32 -> E
    var index: Nat32

    constructor (n: Int32, f: Int32 -> E)
      ensures this.n == n && this.f == f && index == 0
      ensures Remaining() == Tabulated(f, 0, n)
    {
      this.n := n;
      this.f := f;
      index := 0;
    }

    ghost function Remaining(): seq<E>
      reads this
    {
      Tabulated(f, index, n)
    }

    method HasNext() returns (b: bool)
      ensures b <==> index < n
      ensures b <==> Remaining() != []
    {
      return index < n;
    }

    method Next() returns (r: Result<E, Error>)
      modifies this
      ensures old(Remaining()) != [] ==> r == Success(f(old(index))) && r == Success(old(Remaining())[0])
      ensures old(Remaining()) != [] ==> Remaining() == old(Remaining())[1..]
      ensures old(Remaining()) == [] ==> r == Failure(NoSuchElement(EMPTY)) && index == old(index)
    {
      if index < n {
        var result := f(index);
        index := index + 1;
        assert Tabulated(f, index, n) == Tabulated(f, index - 1, n)[1..];
        return Success(result);
      }
      return Failure(NoSuchElement(EMPTY));
    }
  }

  /* ---------------- range ---------------- */

  /** What `range` yields from `index`: values while `0 < index < end`,
      each next one by `int` addition of `step`. */
  function Ranged(index: Int32, end: Int32, step: NonZero32): seq<Int32>
    decreases if 0 < index < end then (if step > 0 then end - index else index) else 0
  {
    if 0 < index < end then [index] + Ranged(Wrap32(index + step), end, step) else []
  }

  /** The same progression in unbounded integers. */
  function Progression(index: int, end: int, step: int): seq<int>
    requires step != 0
    decreases if 0 < index < end then (if step > 0 then end - index else index) else 0
  {
    if 0 < index < end then [index] + Progression(index + step, end, step) else []
  }

  /** `int` wrap-around never shows in a range: a sum that overflows leaves
      `(0, end)` in both readings. */
  lemma {:induction false} RangedIgnoresWrap(index: Int32, end: Int32, step: NonZero32)
    ensures Ranged(index, end, step) == Progression(index, end, step)
    decreases if 0 < index < end then (if step > 0 then end - index else index) else 0
  {
    if 0 < index < end {
      if INT32_MIN <= index + step <= INT32_MAX {
        RangedIgnoresWrap(Wrap32(index + step), end, step);
      } else {
        assert Wrap32(index + step) < 0;
        assert Progression(index + step, end, step) == [];
      }
    }
  }

  /** The values of a range are `start + k * step`, all inside `(0, end)`,
      and the first term left out is outside. */
  lemma {:induction false} ProgressionTerms(start: int, end: int, step: int)
    requires step != 0
    ensures forall k :: 0 <= k < |Progression(start, end, step)| ==>
              Progression(start, end, step)[k] == start + k * step && 0 < start + k * step < end
    ensures !(0 < start + |Progression(start, end, step)| * step < end)
    decreases if 0 < start < end then (if step > 0 then end - start else start) else 0
  {
    var p := Progression(start, end, step);
    if 0 < start < end {
      var rest := Progression(start + step, end, step);
      ProgressionTerms(start + step, end, step);
      assert p == [start] + rest;
      forall k | 1 <= k < |p|
        ensures p[k] == start + k * step
      {
        assert p[k] == rest[k - 1] == start + step + (k - 1) * step;
      }
      assert start + step + |rest| * step == start + |p| * step;
    }
  }

  /** The guard `0 < index` stops a range at once when it starts at or below
      zero, whatever `end` and `step` are: `range(0, n)` yields nothing. */
  lemma RangeFromNonPositiveIsEmpty(start: Int32, end: Int32, step: NonZero32)
    requires start <= 0
    ensures Ranged(start, end, step) == []
  {
  }

  /** `range(start, end, step)`'s iterator. */
  class RangeIterator {
    const end: Int32
    const step: NonZero32
    var index: Int32

    constructor (start: Int32, end: Int32, step: NonZero32)
      ensures index == start && this.end == end && this.step == step
      ensures Remaining() == Ranged(start, end, step)
    {
      index := start;
      this.end := end;
      this.step := step;
    }

    ghost function Remaining(): seq<Int32>
      reads this
    {
      Ranged(index, end, step)
    }

    method HasNext() returns (b: bool)
      ensures b <==> index < end && 0 < index
      ensures b <==> Remaining() != []
    {
      return index < end && 0 < index;
    }

    method Next() returns (r: Result<Int32, Error>)
      modifies this
      ensures old(Remaining()) != [] ==> r == Success(old(index)) && r == Success(old(Remaining())[0])
      ensures old(Remaining()) != [] ==> Remaining() == old(Remaining())[1..]
      ensures old(Remaining()) == [] ==> r == Failure(NoSuchElement(EMPTY)) && index == old(index)
    {
      if index < end && 0 < index {
        var result := index;
        index := Wrap32(index + step);
        return Success(result);
      }
      return Failure(NoSuchElement(EMPTY));
    }
  }

  /** `range(start, end, step)`: rejects a zero step. */
  method RangeStep(start: Int32, end: Int32, step: Int32) returns (r: Result<RangeIterator, Error>)
    ensures step == 0 ==> r == Failure(IllegalArgument(Some("step cannot be zero")))
    ensures step != 0 ==> r.Success? && fresh(r.value) && r.value.Remaining() == Ranged(start, end, step)
  {
    if step == 0 {
      return Failure(IllegalArgument(Some("step cannot be zero")));
    }
    var it := new RangeIterator(start, end, step);
    return Success(it);
  }

  /** `range(start, end)`: step 1. */
  method Range(start: Int32, end: Int32) returns (r: Result<RangeIterator, Error>)
    ensures r.Success? && fresh(r.value) && r.value.Remaining() == Ranged(start, end, 1)
  {
    r := RangeStep(start, end, 1);
  }

  /* ---------------- iterate ---------------- */

  /** `f` applied `k` times to `x`. */
  function Iterated<E>(f: E -> E, x: E, k: nat): E
  {
    if k == 0 then x else f(Iterated(f, x, k - 1))
  }

  /** `iterate(start, func)`: `start`, `f(start)`, `f(f(start))`, ...
      without end. `calls` counts the `next()` calls so far. */
  class IterateIterator<E> {
    const start: E
    const f: E -> E
    var first: bool
    var accumulated: E
    ghost var calls: nat

    ghost predicate Valid()
      reads this
    {
      first == (calls == 0) && accumulated == Iterated(f, start, Max(calls - 1, 0))
    }

    constructor (start: E, f: E -> E)
      ensures Valid() && calls == 0 && this.start == start && this.f == f
    {
      this.start := start;
      this.f := f;
      first := true;
      accumulated := start;
      calls := 0;
    }

    method HasNext() returns (b: bool)
      ensures b
    {
      return true;
    }

    /** Call number `k` (from 0) returns `f` applied `k` times to `start`. */
    method Next() returns (r: E)
      requires Valid()
      modifies this
      ensures Valid() && calls == old(calls) + 1
      ensures r == Iterated(f, start, old(calls))
    {
      calls := calls + 1;
      if first {
        first := false;
        return start;
      }
      accumulated := f(accumulated);
      return accumulated;
    }
  }

  /* ---------------- from ---------------- */

  /** `from(start, step)`: `start`, `start + step`, ... in `int`
      arithmetic, without end. */
  class FromIterator {
    const start: Int32
    const step: Int32
    var first: bool
    var accumulated: Int32
    ghost var calls: nat

    ghost predicate Valid()
      reads this
    {
      first == (calls == 0) && accumulated == Wrap32(start + Max(calls - 1, 0) * step)
    }

    constructor (start: Int32, step: Int32)
      ensures Valid() && calls == 0 && this.start == start && this.step == step
    {
      this.start := start;
      this.step := step;
      first := true;
      accumulated := start;
      calls := 0;
    }

    method HasNext() returns (b: bool)
      ensures b
    {
      return true;
    }

    /** Call number `k` (from 0) returns `start + k * step`, wrapped to an
        `int`. */
    method Next() returns (r: Int32)
      requires Valid()
      modifies this
      ensures Valid() && calls == old(calls) + 1
      ensures r == Wrap32(start + old(calls) * step)
    {
      ghost var k := calls;
      calls := calls + 1;
      if first {
        first := false;
        return accumulated;
      }
      Wrap32Add(start + (k - 1) * step, step);
      assert start + (k - 1) * step + step == start + k * step;
      accumulated := Wrap32(accumulated + step);
      return accumulated;
    }
  }

  /** `from(start)`: step 1. */
  method From(start: Int32) returns (it: FromIterator)
    ensures fresh(it) && it.Valid() && it.calls == 0 && it.start == start && it.step == 1
  {
    it := new FromIterator(start, 1);
  }

  /* ---------------- continually ---------------- */

  /** `continually(computation)`: whatever the computation returns, without
      end; the value of this call is `computed`. */
  class ContinuallyIterator<E> {
    constructor ()
    {
    }

    method HasNext() returns (b: bool)
      ensures b
    {
      return true;
    }

    method Next(computed: E) returns (r: E)
      ensures r == computed
    {
      return computed;
    }
  }

  /* ---------------- padTo ---------------- */

  /** `padTo(elements, length, value)`: the elements, then `value` until
      `length` values were returned. `rest` is what the wrapped list
      iterator still holds; `index` starts at the size and counts the
      padding. */
  class PadToIterator<E> {
    const length: Int32
    const value: E
    var index: Int32
    var rest: seq<E>

    constructor (elements: AdvancedLists.JavaList<E>, length: Int32, value: E)
      ensures this.length == length && this.value == value && index == |elements| && rest == elements
      ensures Remaining() == elements + Repeat(value, Max(0, length - |elements|))
    {
      this.length := length;
      this.value := value;
      index := |elements|;
      rest := elements;
    }

    ghost function Remaining(): seq<E>
      reads this
    {
      rest + Repeat(value, Max(0, length - index))
    }

    method HasNext() returns (b: bool)
      ensures b <==> rest != [] || index < length
      ensures b <==> Remaining() != []
    {
      return rest != [] || index < length;
    }

    method Next() returns (r: Result<E, Error>)
      modifies this
      ensures old(Remaining()) != [] ==> r == Success(old(Remaining())[0]) && Remaining() == old(Remaining())[1..]
      ensures old(Remaining()) == [] ==> r == Failure(NoSuchElement(EMPTY)) && rest == old(rest) && index == old(index)
    {
      if rest != [] || index < length {
        if rest != [] {
          var e := rest[0];
          rest := rest[1..];
          return Success(e);
        }
        index := index + 1;
        assert Repeat(value, Max(0, length - old(index))) == [value] + Repeat(value, Max(0, length - index));
        return Success(value);
      }
      return Failure(NoSuchElement(EMPTY));
    }
  }

  /* ---------------- sliding ---------------- */

  /** The copy loop of `Iterators.SlidingListIterator.next()`: `k` rounds
      starting at position `x`; a round at the end of the list adds nothing
      and restarts at 0. Gives the window and the final position. */
  function WrapCopy<E>(s: seq<E>, x: int, k: nat): (c: (seq<E>, int))
    requires 0 <= x <= |s|
    ensures 0 <= c.1 <= |s|
    decreases k
  {
    if k == 0 then ([], x)
    else if x < |s| then
      var c := WrapCopy(s, x + 1, k - 1);
      ([s[x]] + c.0, c.1)
    else WrapCopy(s, 0, k - 1)
  }

  /** While the rounds stay inside the list, the window is the plain slice. */
  lemma {:induction false} WrapCopyFits<E>(s: seq<E>, x: int, k: nat)
    requires 0 <= x && x + k <= |s|
    ensures WrapCopy(s, x, k) == (s[x..x + k], x + k)
    decreases k
  {
    if k > 0 {
      WrapCopyFits(s, x + 1, k - 1);
      var c := WrapCopy(s, x + 1, k - 1);
      assert WrapCopy(s, x, k) == ([s[x]] + c.0, c.1);
      assert s[x..x + k] == [s[x]] + s[x + 1..x + k];
    } else {
      assert s[x..x + k] == [];
    }
  }

  /** Past the end, one round is spent restarting, and the window goes on
      from element 0: it holds the tail from `x` and then `k - (|s| - x) - 1`
      elements from the front. */
  lemma {:induction false} WrapCopyWraps<E>(s: seq<E>, x: int, k: nat)
    requires 0 <= x <= |s| && |s| - x < k <= 2 * |s| - x + 1
    ensures WrapCopy(s, x, k) == (s[x..] + s[..k - (|s| - x) - 1], k - (|s| - x) - 1)
    decreases k
  {
    if x < |s| {
      WrapCopyWraps(s, x + 1, k - 1);
      var c := WrapCopy(s, x + 1, k - 1);
      assert WrapCopy(s, x, k) == ([s[x]] + c.0, c.1);
      var m := k - (|s| - x) - 1;
      assert c == (s[x + 1..] + s[..m], m);
      assert s[x..] + s[..m] == [s[x]] + (s[x + 1..] + s[..m]);
    } else {
      WrapCopyFits(s, 0, k - 1);
      assert WrapCopy(s, x, k) == WrapCopy(s, 0, k - 1);
      assert s[x..] + s[..k - 1] == s[0..k - 1];
    }
  }

  /** `next()` of `Iterators.SlidingListIterator` on the list `s` at
      `index`: past the end it raises; otherwise it runs the copy loop for
      `index + n - index` rounds (none once the `int` sum wraps), and the
      index jumps to the size when the loop ended at the end of the list,
      or else moves on by one. */
  function SlideNext<E>(s: AdvancedLists.JavaList<E>, index: Int32, n: AdvancedLists.PosInt32): (st: AdvancedLists.Step<E>)
  {
    if index > |s| - 1 then AdvancedLists.Step(Failure(NoSuchElement("next on empty iterator")), index)
    else
      var cap := Wrap32(index + n);
      if cap <= index then AdvancedLists.Step(Success([]), Wrap32(index + 1))
      else if index < 0 then AdvancedLists.Step(Failure(IndexOutOfBounds(index)), index)
      else
        var c := WrapCopy(s, index, cap - index);
        AdvancedLists.Step(Success(c.0), if c.1 > |s| - 1 then |s| else Wrap32(index + 1))
  }

  /** The windows successive `next()` calls return from `index` on. */
  function SlideWindows<E>(s: AdvancedLists.JavaList<E>, index: Int32, n: AdvancedLists.PosInt32): seq<seq<E>>
    decreases if 0 <= index < |s| then |s| - index else 0
  {
    var st := SlideNext(s, index, n);
    if st.result.Failure? then [] else [st.result.value] + SlideWindows(s, st.index, n)
  }

  /** The body of `next()`. */
  method NextSlide<E>(elements: AdvancedLists.JavaList<E>, index: Int32, n: AdvancedLists.PosInt32)
    returns (st: AdvancedLists.Step<E>)
    ensures st == SlideNext(elements, index, n)
  {
    var size := |elements|;
    if index > size - 1 {
      return AdvancedLists.Step(Failure(NoSuchElement("next on empty iterator")), index);
    }
    var window: seq<E> := [];
    var x: int := index;
    var cap := Wrap32(index + n);
    ghost var rounds: nat := if cap <= index then 0 else cap - index;
    var i: int := index;
    while i < cap
      invariant index <= i <= index + rounds
      invariant i == index ==> x == index && window == []
      invariant index < 0 ==> i == index
      invariant 0 <= index ==> 0 <= x <= size
      invariant 0 <= index ==> WrapCopy(elements, index, rounds).0 == window + WrapCopy(elements, x, index + rounds - i).0
      invariant 0 <= index ==> WrapCopy(elements, index, rounds).1 == WrapCopy(elements, x, index + rounds - i).1
    {
      if x < size {
        if x < 0 {
          return AdvancedLists.Step(Failure(IndexOutOfBounds(x)), index);
        }
        ghost var c := WrapCopy(elements, x + 1, index + rounds - i - 1);
        assert WrapCopy(elements, x, index + rounds - i) == ([elements[x]] + c.0, c.1);
        window := window + [elements[x]];
        x := x + 1;
      } else {
        x := 0;
      }
      i := i + 1;
    }
    assert 0 <= index ==> WrapCopy(elements, x, index + rounds - i) == ([], x);
    assert window + [] == window;
    assert 0 <= index ==> WrapCopy(elements, index, rounds).0 == window && WrapCopy(elements, index, rounds).1 == x;
    var next: Int32;
    if x > size - 1 {
      next := size;
    } else {
      next := Wrap32(index + 1);
    }
    return AdvancedLists.Step(Success(window), next);
  }

  /** When the window fits, `Iterators.sliding` and `AdvancedList.sliding`
      return the same windows. */
  lemma {:induction false} SlideAgreesWhenFits<E>(s: AdvancedLists.JavaList<E>, index: Int32, n: AdvancedLists.PosInt32)
    requires n <= |s| && 0 <= index <= |s| - n
    ensures SlideWindows(s, index, n) == AdvancedLists.Windows(s, index, n, false)
    decreases |s| - index
  {
    WrapCopyFits(s, index, n);
    var st := SlideNext(s, index, n);
    assert st == AdvancedLists.WindowNext(s, index, n, false);
    if index + n < |s| {
      SlideAgreesWhenFits(s, index + 1, n);
    }
  }

  /** `sliding(elements, n)`'s iterator, over the list as it was passed. */
  class SlidingListIterator<E> {
    const elements: AdvancedLists.JavaList<E>
    const n: AdvancedLists.PosInt32
    var index: Int32

    constructor (elements: AdvancedLists.JavaList<E>, n: AdvancedLists.PosInt32)
      ensures this.elements == elements && this.n == n && index == 0
    {
      this.elements := elements;
      this.n := n;
      index := 0;
    }

    ghost function Remaining(): seq<seq<E>>
      reads this
    {
      SlideWindows(elements, index, n)
    }

    /** `hasNext()`: `index < size - 1`, as in `AdvancedList`'s window
        iterators. */
    method HasNext() returns (b: bool)
      ensures b <==> index < |elements| - 1
    {
      b := index < |elements| - 1;
    }

    method Next() returns (r: Result<seq<E>, Error>)
      modifies this
      ensures AdvancedLists.Step(r, index) == SlideNext(elements, old(index), n)
      ensures old(Remaining()) == [] ==> r.Failure?
      ensures old(Remaining()) != [] ==> r == Success(old(Remaining())[0]) && Remaining() == old(Remaining())[1..]
    {
      var st := NextSlide(elements, index, n);
      index := st.index;
      r := st.result;
    }

    /** `iterator()`: a new iterator over the same list, from the start. */
    method Iterator() returns (it: SlidingListIterator<E>)
      ensures fresh(it) && it.elements == elements && it.n == n && it.index == 0
    {
      it := new SlidingListIterator(elements, n);
    }
  }

  /** `sliding(elements, n)`: rejects `n < 1`. */
  method Sliding<E>(elements: AdvancedLists.JavaList<E>, n: Int32) returns (r: Result<SlidingListIterator<E>, Error>)
    ensures n < 1 ==> r == Failure(IllegalArgument(Some("window size cannot be less than one.")))
    ensures n >= 1 ==> r.Success? && fresh(r.value) && r.value.elements == elements && r.value.n == n && r.value.index == 0
  {
    if n < 1 {
      return Failure(IllegalArgument(Some("window size cannot be less than one.")));
    }
    var it := new SlidingListIterator(elements, n);
    return Success(it);
  }
}
