/** `com.mindplex.commons.collections.AdvancedList`: a mutable list with
    Scala-style queries. The backing `ArrayList` is the `elements` field;
    every query copies what it returns into a new list, index by index. */
module AdvancedLists {
  import opened Wrappers
  import opened JavaLang
  import opened ListSpec

  /** A `java.util.List` holds at most `Integer.MAX_VALUE` elements. */
  type JavaList<E> = s: seq<E> | |s| <= 0x7fff_ffff

  /** An `int` that is at least one: a validated window or group size. */
  type PosInt32 = n: int | 1 <= n <= 0x7fff_ffff witness 1

  /** `AdvancedList.Tuple`, as built by the zip operations. */
  datatype Tuple<X, Y> = Tuple(x: X, y: Y)

  /** What `drop`, `takeRight` and `dropRight` return: a new list, or the
      backing list itself, which the caller then shares with the
      `AdvancedList`. */
  datatype ListRef<E> = NewList(items: seq<E>) | BackingList
  {
    /** The contents of the returned list, given the backing list's. */
    function Resolve(backing: seq<E>): seq<E>
    {
      if NewList? then items else backing
    }
  }

  /** The loop of `map(func)`: `f` applied to each element, in order. */
  method MapAll<X, R>(items: seq<X>, f: X -> R) returns (r: seq<R>)
    ensures r == Mapped(items, f)
  {
    r := [];
    var i := 0;
    while i < |items|
      invariant 0 <= i <= |items|
      invariant |r| == i && forall j :: 0 <= j < i ==> r[j] == f(items[j])
    {
      r := r + [f(items[i])];
      i := i + 1;
    }
  }

  /** Mapping over the result of a call that may have raised: the
      exception passes through. */
  method MapResult<X, R>(res: Result<seq<X>, Error>, f: X -> R) returns (r: Result<seq<R>, Error>)
    ensures res.Failure? ==> r == Failure(res.error)
    ensures res.Success? ==> r == Success(Mapped(res.value, f))
  {
    match res
    case Failure(e) =>
      r := Failure(e);
    case Success(items) =>
      var mapped := MapAll(items, f);
      r := Success(mapped);
  }

  class AdvancedList<E(==)> {
    var elements: JavaList<E>

    constructor ()
      ensures elements == []
    {
      elements := [];
    }

    /* ---------------- Maps ---------------- */

    /** `map(func)`: as long as the list, entry `i` being `f(elements[i])`. */
    method Map<R>(f: E -> R) returns (r: seq<R>)
      ensures |r| == |elements|
      ensures forall i :: 0 <= i < |elements| ==> r[i] == f(elements[i])
    {
      r := MapAll(elements, f);
    }

    /** `flatMap(func)`: the lists `f(e)` for the elements `e`, first all
        computed and then concatenated in order. */
    method FlatMap<R>(f: E -> seq<R>) returns (r: seq<R>)
      ensures r == Flattened(Mapped(elements, f))
    {
      var temp := MapAll(elements, f);
      r := [];
      var k := 0;
      while k < |temp|
        invariant 0 <= k <= |temp|
        invariant r == Flattened(temp[..k])
      {
        var list := temp[k];
        var m := 0;
        while m < |list|
          invariant 0 <= m <= |list|
          invariant r == Flattened(temp[..k]) + list[..m]
        {
          r := r + [list[m]];
          m := m + 1;
        }
        assert list[..m] == list;
        assert temp[..k + 1] == temp[..k] + [list];
        FlattenedSnoc(temp[..k], list);
        k := k + 1;
      }
      assert temp[..k] == temp;
    }

    /* ---------------- Element retrieval ---------------- */

    /** `head()`: the first element; NoSuchElementException on an empty list. */
    method Head() returns (r: Result<E, Error>)
      ensures |elements| == 0 ==> r == Failure(NoSuchElement("head of empty list"))
      ensures |elements| > 0 ==> r == Success(elements[0])
    {
      if |elements| == 0 {
        return Failure(NoSuchElement("head of empty list"));
      }
      return Success(elements[0]);
    }

    /** `last()`: the last element; on an empty list the same exception and
        message as `head()`. */
    method Last() returns (r: Result<E, Error>)
      ensures |elements| == 0 ==> r == Failure(NoSuchElement("head of empty list"))
      ensures |elements| > 0 ==> r == Success(elements[|elements| - 1])
    {
      if |elements| == 0 {
        return Failure(NoSuchElement("head of empty list"));
      }
      return Success(elements[|elements| - 1]);
    }

    /** `find(predicate)`: the first element satisfying `p`, or null. */
    method Find(p: E -> bool) returns (r: Option<E>)
      ensures r.None? <==> forall i :: 0 <= i < |elements| ==> !p(elements[i])
      ensures r.Some? ==> exists i :: 0 <= i < |elements| && elements[i] == r.value && p(r.value) &&
                                      forall j :: 0 <= j < i ==> !p(elements[j])
    {
      var i := 0;
      while i < |elements|
        invariant 0 <= i <= |elements|
        invariant forall j :: 0 <= j < i ==> !p(elements[j])
      {
        if p(elements[i]) {
          return Some(elements[i]);
        }
        i := i + 1;
      }
      return None;
    }

    /* ---------------- Subcollections ---------------- */

    /** The copying loop the queries share: `elements[lo..hi]`, one
        `get(i)` at a time. */
    method CopyRange(lo: int, hi: int) returns (r: seq<E>)
      requires 0 <= lo <= hi <= |elements|
      ensures r == elements[lo..hi]
    {
      r := [];
      var i := lo;
      while i < hi
        invariant lo <= i <= hi
        invariant r == elements[lo..i]
      {
        r := r + [elements[i]];
        i := i + 1;
      }
    }

    /** `tail()`: all but the first element; UnsupportedOperationException
        on an empty list. */
    method Tail() returns (r: Result<seq<E>, Error>)
      ensures |elements| == 0 ==> r == Failure(UnsupportedOperation("tail of empty list"))
      ensures |elements| > 0 ==> r == Success(elements[1..])
    {
      if |elements| == 0 {
        return Failure(UnsupportedOperation("tail of empty list"));
      }
      var result := CopyRange(0, |elements|);
      assert result == elements;
      result := result[1..];
      return Success(result);
    }

    /** `init()`: all but the last element; the same exception and message
        as `tail()`. */
    method Init() returns (r: Result<seq<E>, Error>)
      ensures |elements| == 0 ==> r == Failure(UnsupportedOperation("tail of empty list"))
      ensures |elements| > 0 ==> r == Success(elements[..|elements| - 1])
    {
      if |elements| == 0 {
        return Failure(UnsupportedOperation("tail of empty list"));
      }
      var result := CopyRange(0, |elements|);
      assert result == elements;
      result := result[..|elements| - 1];
      return Success(result);
    }

    /** `slice(from, to)`: empty when `from` is past the end; otherwise the
        elements from `from` up to `to` capped at the size, which is empty
        when the range is. A negative `from` reaches `get(from)` and raises
        unless the range is empty. */
    method Slice(from: Int32, to: Int32) returns (r: Result<seq<E>, Error>)
      ensures from > |elements| ==> r == Success([])
      ensures from <= |elements| && Min(to, |elements|) <= from ==> r == Success([])
      ensures 0 <= from < Min(to, |elements|) ==> r == Success(elements[from..Min(to, |elements|)])
      ensures from < 0 && from < Min(to, |elements|) ==> r == Failure(IndexOutOfBounds(from))
    {
      if from > |elements| {
        return Success([]);
      }
      var result: seq<E> := [];
      var upper := to;
      if upper > |elements| {
        upper := |elements|;
      }
      var i: int := from;
      while i < upper
        invariant from <= i
        invariant i > from ==> 0 <= from && i <= upper
        invariant i == from ==> result == []
        invariant 0 <= from <= i <= upper ==> result == elements[from..i]
      {
        if i < 0 {
          return Failure(IndexOutOfBounds(i));
        }
        result := result + [elements[i]];
        i := i + 1;
      }
      return Success(result);
    }

    /** `take(n)`: the first `n` elements, `n` clamped to `[0, size]`. */
    method Take(n: Int32) returns (r: seq<E>)
      ensures r == Taken(elements, n)
      ensures |r| == Clamp(n, 0, |elements|)
    {
      var m := n;
      if m > |elements| {
        m := |elements|;
      }
      if m < 1 {
        return [];
      }
      r := CopyRange(0, m);
    }

    /** `drop(n)`: all but the first `n` elements; for `n < 1` the backing
        list itself. */
    method Drop(n: Int32) returns (r: ListRef<E>)
      ensures r.BackingList? <==> n < 1
      ensures r.Resolve(elements) == Dropped(elements, n)
    {
      if n > |elements| {
        return NewList([]);
      }
      if n < 1 {
        return BackingList;
      }
      var result := CopyRange(n, |elements|);
      return NewList(result);
    }

    /** `takeRight(n)`: the last `n` elements; for `n` above the size the
        backing list itself. */
    method TakeRight(n: Int32) returns (r: ListRef<E>)
      ensures r.BackingList? <==> n > |elements|
      ensures r.Resolve(elements) == TakenRight(elements, n)
    {
      if n < 1 {
        return NewList([]);
      }
      if n > |elements| {
        return BackingList;
      }
      var index := |elements| - n;
      var result := CopyRange(index, |elements|);
      return NewList(result);
    }

    /** `dropRight(n)`: all but the last `n` elements; for `n < 1` the
        backing list itself. */
    method DropRight(n: Int32) returns (r: ListRef<E>)
      ensures r.BackingList? <==> n < 1
      ensures r.Resolve(elements) == DroppedRight(elements, n)
    {
      if n < 1 {
        return BackingList;
      }
      if n > |elements| {
        return NewList([]);
      }
      var index := |elements| - n;
      var result := CopyRange(0, index);
      return NewList(result);
    }

    /* ---------------- Zippers ---------------- */

    /** `zip(other)`: pairs of elements at equal positions, as many as the
        shorter list has. */
    method Zip<Y>(other: seq<Y>) returns (r: seq<Tuple<E, Y>>)
      ensures |r| == Min(|elements|, |other|)
      ensures forall i :: 0 <= i < |r| ==> r[i] == Tuple(elements[i], other[i])
    {
      r := [];
      var i := 0;
      while i < |elements|
        invariant 0 <= i <= |elements|
        invariant |r| == Min(i, |other|)
        invariant forall j :: 0 <= j < |r| ==> r[j] == Tuple(elements[j], other[j])
      {
        if i < |other| {
          r := r + [Tuple(elements[i], other[i])];
        }
        i := i + 1;
      }
    }

    /** `zipAll(other, x, y)`: as many pairs as the longer list has, the
        shorter side padded with `x` (this list) or `y` (the other). */
    method ZipAll<Y>(other: seq<Y>, x: E, y: Y) returns (r: seq<Tuple<E, Y>>)
      ensures |r| == Max(|elements|, |other|)
      ensures forall i :: 0 <= i < |r| ==>
                r[i] == Tuple(if i < |elements| then elements[i] else x,
                              if i < |other| then other[i] else y)
    {
      r := [];
      var i := 0;
      while i < |elements|
        invariant 0 <= i <= |elements|
        invariant |r| == i
        invariant forall j :: 0 <= j < i ==> r[j] == Tuple(elements[j], if j < |other| then other[j] else y)
      {
        if i < |other| {
          r := r + [Tuple(elements[i], other[i])];
        } else {
          r := r + [Tuple(elements[i], y)];
        }
        i := i + 1;
      }
      if |other| > |elements| {
        var k := |elements|;
        while k < |other|
          invariant |elements| <= k <= |other|
          invariant |r| == k
          invariant forall j :: 0 <= j < |elements| ==> r[j] == Tuple(elements[j], if j < |other| then other[j] else y)
          invariant forall j :: |elements| <= j < k ==> r[j] == Tuple(x, other[j])
        {
          r := r + [Tuple(x, other[k])];
          k := k + 1;
        }
      }
    }

    /** `zipWithIndex()`: each element paired with its position. */
    method ZipWithIndex() returns (r: seq<Tuple<E, Int32>>)
      ensures |r| == |elements|
      ensures forall i :: 0 <= i < |r| ==> r[i] == Tuple(elements[i], i)
    {
      r := [];
      var i := 0;
      while i < |elements|
        invariant 0 <= i <= |elements|
        invariant |r| == i
        invariant forall j :: 0 <= j < i ==> r[j] == Tuple(elements[j], j)
      {
        r := r + [Tuple(elements[i], i)];
        i := i + 1;
      }
    }

    /* ---------------- Sliding and grouped iterators ---------------- */

    /** `sliding(size)`: a window iterator over the backing list itself, so
        later changes to this list show through. Sizes below one raise. */
    method Sliding(size: Int32) returns (r: Result<SlidingListIterator<E>, Error>)
      ensures size < 1 ==> r == Failure(IllegalArgument(Some("window size cannot be less than one.")))
      ensures size >= 1 ==> r.Success? && fresh(r.value) && r.value.list == this && r.value.n == size && r.value.index == 0
    {
      if size < 1 {
        return Failure(IllegalArgument(Some("window size cannot be less than one.")));
      }
      var it := new SlidingListIterator(this, size);
      return Success(it);
    }

    /** `grouped(size)`: a group iterator over the backing list itself.
        Sizes below one raise. */
    method Grouped(size: Int32) returns (r: Result<GroupedListIterator<E>, Error>)
      ensures size < 1 ==> r == Failure(IllegalArgument(Some("group size cannot be less than one.")))
      ensures size >= 1 ==> r.Success? && fresh(r.value) && r.value.list == this && r.value.n == size && r.value.index == 0
    {
      if size < 1 {
        return Failure(IllegalArgument(Some("group size cannot be less than one.")));
      }
      var it := new GroupedListIterator(this, size);
      return Success(it);
    }

    /* ---------------- Reversal ---------------- */

    /** The loop of `reverse()`, from a given first index down to 0: the
        elements `start` down to `0`, or an IndexOutOfBoundsException from
        `get(start)` when `start` is not an index. */
    method CollectDownFrom(start: int) returns (r: Result<seq<E>, Error>)
      ensures start < 0 ==> r == Success([])
      ensures 0 <= start < |elements| ==> r == Success(Reversed(elements[..start + 1]))
      ensures start >= |elements| ==> r == Failure(IndexOutOfBounds(start))
    {
      var result: seq<E> := [];
      var i := start;
      while i >= 0
        invariant i <= start
        invariant start >= |elements| ==> i == start
        invariant 0 <= start < |elements| ==> -1 <= i && result == Reversed(elements[i + 1..start + 1])
        invariant start < 0 ==> result == []
      {
        if i >= |elements| {
          return Failure(IndexOutOfBounds(i));
        }
        ghost var tail := elements[i + 1..start + 1];
        ghost var whole := elements[i..start + 1];
        assert whole[1..] == tail;
        assert whole == [whole[0]] + whole[1..];
        ReversedCons(elements[i], tail);
        result := result + [elements[i]];
        i := i - 1;
      }
      if 0 <= start < |elements| {
        assert elements[i + 1..start + 1] == elements[..start + 1];
      }
      return Success(result);
    }

    /** `reverse()` as written: its loop starts at `get(size)`, so every
        call raises IndexOutOfBoundsException, on an empty list too. */
    method Reverse() returns (r: Result<seq<E>, Error>)
      ensures r == Failure(IndexOutOfBounds(|elements|))
    {
      r := CollectDownFrom(|elements|);
    }

    /** `reverse()` with the loop starting at `size - 1`: the elements from
        last to first. */
    method ReverseIntended() returns (r: seq<E>)
      ensures r == Reversed(elements)
      ensures forall k :: 0 <= k < |r| ==> r[k] == elements[|elements| - 1 - k]
    {
      var res := CollectDownFrom(|elements| - 1);
      assert elements[..|elements|] == elements;
      r := res.value;
      forall k | 0 <= k < |r|
        ensures r[k] == elements[|elements| - 1 - k]
      {
        ReversedAt(elements, k);
      }
    }

    /** `reverseMap(func)`: maps over `reverse()` and so raises what it
        raises, on every call. */
    method ReverseMap<R>(f: E -> R) returns (r: Result<seq<R>, Error>)
      ensures r == Failure(IndexOutOfBounds(|elements|))
    {
      var rev := Reverse();
      r := MapResult(rev, f);
    }

    /** `reverseIterator()`: an iterator from the last element to the
        first, over the live backing list. */
    method ReverseIterator() returns (it: ReverseListIterator<E>)
      ensures fresh(it) && it.list == this && it.size == |elements| && it.index == |elements| - 1
      ensures it.Remaining() == Reversed(elements)
    {
      it := new ReverseListIterator(this);
      assert elements[..it.index + 1] == elements;
    }

    /* ---------------- Comparison ---------------- */

    /** `startsWith(other)`: false for an empty `other`; otherwise compares
        position by position and stops at the first mismatch. When `other`
        is longer and this whole list matches its front, `get(size)` raises. */
    method StartsWith(other: seq<E>) returns (r: Result<bool, Error>)
      ensures other == [] ==> r == Success(false)
      ensures other != [] && |other| <= |elements| ==> r == Success(other == elements[..|other|])
      ensures other != [] && |other| > |elements| ==>
                r == if other[..|elements|] == elements then Failure(IndexOutOfBounds(|elements|)) else Success(false)
    {
      if |other| == 0 {
        return Success(false);
      }
      var i := 0;
      while i < |other|
        invariant 0 <= i <= |other| && i <= |elements|
        invariant elements[..i] == other[..i]
      {
        if i >= |elements| {
          assert other[..|elements|] == elements;
          return Failure(IndexOutOfBounds(i));
        }
        if elements[i] != other[i] {
          assert |other| <= |elements| ==> other[i] != elements[..|other|][i];
          assert |other| > |elements| ==> other[..|elements|][i] != elements[i];
          return Success(false);
        }
        i := i + 1;
      }
      assert other == elements[..|other|];
      return Success(true);
    }

    /** `endsWith(other)`: `other` is non-empty and equals the last
        `|other|` elements. */
    method EndsWith(other: seq<E>) returns (b: bool)
      ensures b <==> other != [] && |other| <= |elements| && elements[|elements| - |other|..] == other
    {
      if |other| == 0 {
        return false;
      }
      var index := |elements| - |other|;
      if index < 0 {
        return false;
      }
      var count := 0;
      var i := index;
      while i < |elements|
        invariant index <= i <= |elements|
        invariant count == i - index
        invariant elements[index..i] == other[..count]
      {
        if elements[i] != other[count] {
          assert elements[index..][count] != other[count];
          return false;
        }
        count := count + 1;
        i := i + 1;
      }
      assert other[..count] == other;
      return true;
    }

    /* ---------------- Strings ---------------- */

    /** `addString(sb)`: appends every element's text (`show` stands for
        `String.valueOf`), then returns all of `sb`. */
    method AddString(sb: StringBuilder, show: E -> string) returns (r: string)
      modifies sb
      ensures sb.content == old(sb.content) + Flattened(Mapped(elements, show))
      ensures r == sb.content
    {
      var names := Mapped(elements, show);
      var i := 0;
      while i < |elements|
        invariant 0 <= i <= |elements|
        invariant sb.content == old(sb.content) + Flattened(names[..i])
      {
        sb.Append(show(elements[i]));
        assert names[..i + 1] == names[..i] + [names[i]];
        FlattenedSnoc(names[..i], names[i]);
        i := i + 1;
      }
      assert names[..i] == names;
      return sb.content;
    }

    /** The separator loop of `addString` and `mkString`: every element's
        text, followed by `sep` while the countdown from `size - 1` is still
        positive, that is, after every element but the last. */
    method AppendJoined(sb: StringBuilder, sep: string, show: E -> string)
      modifies sb
      ensures sb.content == old(sb.content) + Joined(Mapped(elements, show), sep)
    {
      var names := Mapped(elements, show);
      var count := |elements| - 1;
      var i := 0;
      while i < |elements|
        invariant 0 <= i <= |elements|
        invariant count == |elements| - 1 - i
        invariant sb.content == old(sb.content) +
                    (if i == 0 then "" else Joined(names[..i], sep) + (if i < |elements| then sep else ""))
      {
        sb.Append(show(elements[i]));
        if count > 0 {
          sb.Append(sep);
        }
        count := count - 1;
        assert names[..i + 1][..i] == names[..i];
        i := i + 1;
      }
      assert names[..i] == names;
    }

    /** `addString(sb, separator)`: appends the elements' texts with the
        separator between them, then returns all of `sb`. */
    method AddStringSep(sb: StringBuilder, separator: string, show: E -> string) returns (r: string)
      modifies sb
      ensures sb.content == old(sb.content) + Joined(Mapped(elements, show), separator)
      ensures r == sb.content
    {
      AppendJoined(sb, separator, show);
      return sb.content;
    }

    /** `addString(sb, start, separator, end)`: `start`, the joined texts,
        `end`, appended to `sb`, then all of `sb`. */
    method AddStringWrapped(sb: StringBuilder, start: string, separator: string, end: string, show: E -> string)
      returns (r: string)
      modifies sb
      ensures sb.content == old(sb.content) + start + Joined(Mapped(elements, show), separator) + end
      ensures r == sb.content
    {
      sb.Append(start);
      AppendJoined(sb, separator, show);
      sb.Append(end);
      return sb.content;
    }

    /** `mkString(separator)`: the elements' texts with the separator
        between consecutive ones and none at either end. */
    method MkString(separator: string, show: E -> string) returns (r: string)
      ensures r == Joined(Mapped(elements, show), separator)
    {
      var buffer := new StringBuilder();
      AppendJoined(buffer, separator, show);
      r := buffer.content;
    }

    /** `mkString(start, separator, end)`: the same text between `start`
        and `end`. */
    method MkStringWrapped(start: string, separator: string, end: string, show: E -> string) returns (r: string)
      ensures r == start + Joined(Mapped(elements, show), separator) + end
    {
      var buffer := new StringBuilder();
      buffer.Append(start);
      AppendJoined(buffer, separator, show);
      buffer.Append(end);
      r := buffer.content;
    }

    /* ---------------- List operations ---------------- */

    /** `add(value)`: appends and returns this list. */
    method Add(value: E) returns (r: AdvancedList<E>)
      requires |elements| < INT32_MAX
      modifies this
      ensures elements == old(elements) + [value] && r == this
    {
      elements := elements + [value];
      return this;
    }

    /** `set(value)`: the same as `add(value)`. */
    method Set(value: E) returns (r: AdvancedList<E>)
      requires |elements| < INT32_MAX
      modifies this
      ensures elements == old(elements) + [value] && r == this
    {
      r := Add(value);
    }

    /** `remove(element)`: removes the first occurrence, reporting whether
        there was one. */
    method Remove(element: E) returns (changed: bool)
      modifies this
      ensures changed <==> element in old(elements)
      ensures elements == RemoveFirst(old(elements), element)
    {
      changed := element in elements;
      elements := RemoveFirst(elements, element);
    }

    /** `removeAll(es)`: keeps the elements not in `es`, reporting whether
        any went. */
    method RemoveAll(es: seq<E>) returns (changed: bool)
      modifies this
      ensures elements == FilteredBy(old(elements), es, false)
      ensures changed <==> exists i :: 0 <= i < |old(elements)| && old(elements)[i] in es
    {
      var before := elements;
      FilteredByLength(before, es, false);
      elements := FilteredBy(before, es, false);
      changed := |elements| != |before|;
    }

    /** `retainAll(es)`: keeps the elements in `es`, reporting whether any
        went. */
    method RetainAll(es: seq<E>) returns (changed: bool)
      modifies this
      ensures elements == FilteredBy(old(elements), es, true)
      ensures changed <==> exists i :: 0 <= i < |old(elements)| && old(elements)[i] !in es
    {
      var before := elements;
      FilteredByLength(before, es, true);
      elements := FilteredBy(before, es, true);
      changed := |elements| != |before|;
    }

    /** `get(index)`: the element, or IndexOutOfBoundsException. */
    method Get(index: Int32) returns (r: Result<E, Error>)
      ensures 0 <= index < |elements| ==> r == Success(elements[index])
      ensures !(0 <= index < |elements|) ==> r == Failure(IndexOutOfBounds(index))
    {
      if 0 <= index < |elements| {
        return Success(elements[index]);
      }
      return Failure(IndexOutOfBounds(index));
    }

    method Contains(element: E) returns (b: bool)
      ensures b <==> exists i :: 0 <= i < |elements| && elements[i] == element
    {
      b := element in elements;
    }

    method ContainsAll(es: seq<E>) returns (b: bool)
      ensures b <==> forall j :: 0 <= j < |es| ==> es[j] in elements
    {
      b := forall j :: 0 <= j < |es| ==> es[j] in elements;
    }

    method IsEmpty() returns (b: bool)
      ensures b <==> |elements| == 0
    {
      b := |elements| == 0;
    }

    method Size() returns (n: Int32)
      ensures n == |elements|
    {
      n := |elements|;
    }

    /** `clear()`: the list becomes empty. */
    method Clear()
      modifies this
      ensures elements == []
    {
      elements := [];
    }
  }

  /* ---------------- Window iterators ---------------- */

  /** The outcome of `next()` on a window iterator: what it returns or
      raises, and the index it leaves behind. */
  datatype Step<E> = Step(result: Result<seq<E>, Error>, index: Int32)

  /** `next()` of `GroupedListIterator` (`grouped`) and
      `SlidingListIterator`, on the backing list `s` at `index`. Past the
      end it raises. Otherwise the window runs from `index` to `index + n`
      (an `int` sum, so it can wrap) capped at the size. A negative index,
      which only a wrapped grouped step produces, raises in `get`. The index
      then jumps to the size once the window reached the last element, and
      otherwise advances by `n` (grouped) or by one (sliding). */
  function WindowNext<E>(s: JavaList<E>, index: Int32, n: PosInt32, grouped: bool): (st: Step<E>)
  {
    if index > |s| - 1 then Step(Failure(NoSuchElement("next on empty iterator")), index)
    else
      var cap := Wrap32(index + n);
      var advanced := Wrap32(index + (if grouped then n else 1));
      if cap <= index then Step(Success([]), advanced)
      else if index < 0 then Step(Failure(IndexOutOfBounds(index)), index)
      else
        var x := Min(cap, |s|);
        Step(Success(s[index..x]), if x > |s| - 1 then |s| else advanced)
  }

  /** Without `int` overflow, `next()` at an index before the end returns
      up to `n` elements from there and advances by the step, or to the
      size once the window reached the last element. */
  lemma WindowStep<E>(s: JavaList<E>, index: Int32, n: PosInt32, grouped: bool)
    requires 0 <= index < |s| && |s| + n <= INT32_MAX + 1
    ensures WindowNext(s, index, n, grouped)
            == Step(Success(s[index..Min(index + n, |s|)]), if index + n >= |s| then |s| else index + (if grouped then n else 1))
  {
    assert Wrap32(index + n) == index + n && Wrap32(index + 1) == index + 1;
  }

  /** The windows successive `next()` calls return from `index` on, up to
      the first call that raises. */
  function Windows<E>(s: JavaList<E>, index: Int32, n: PosInt32, grouped: bool): seq<seq<E>>
    decreases if 0 <= index < |s| then |s| - index else 0
  {
    var st := WindowNext(s, index, n, grouped);
    if st.result.Failure? then [] else [st.result.value] + Windows(s, st.index, n, grouped)
  }

  /** Without `int` overflow, the windows from an index before the end are
      the window there followed by the windows from the next index. */
  lemma WindowsUnfold<E>(s: JavaList<E>, index: Int32, n: PosInt32, grouped: bool)
    requires 0 <= index < |s| && |s| + n <= INT32_MAX + 1
    ensures Windows(s, index, n, grouped)
            == [s[index..Min(index + n, |s|)]] + Windows(s, if index + n >= |s| then |s| else index + (if grouped then n else 1), n, grouped)
  {
    WindowStep(s, index, n, grouped);
  }

  /** The body of `next()`, shared by both window iterators. */
  method NextWindow<E>(elements: JavaList<E>, index: Int32, n: PosInt32, grouped: bool) returns (st: Step<E>)
    ensures st == WindowNext(elements, index, n, grouped)
  {
    var size := |elements|;
    if index > size - 1 {
      return Step(Failure(NoSuchElement("next on empty iterator")), index);
    }
    var window: seq<E> := [];
    var x: int := index;
    var cap := Wrap32(index + n);
    var i: int := index;
    while i < cap
      invariant index <= i && x == i && x <= size
      invariant i > index ==> 0 <= index && i <= cap
      invariant 0 <= index ==> window == elements[index..x]
    {
      if x < size {
        if x < 0 {
          return Step(Failure(IndexOutOfBounds(x)), index);
        }
        assert 0 <= index <= x < size;
        assert elements[index..x + 1] == elements[index..x] + [elements[x]];
        window := window + [elements[x]];
        x := x + 1;
      } else {
        break;
      }
      i := i + 1;
    }
    var next: Int32;
    if x > size - 1 {
      next := size;
    } else if grouped {
      next := Wrap32(index + n);
    } else {
      next := Wrap32(index + 1);
    }
    return Step(Success(window), next);
  }

  /** At any index from 0 on, windows remain exactly while the index is
      before the end. */
  lemma WindowsRemainIff<E>(s: JavaList<E>, index: Int32, n: PosInt32, grouped: bool)
    requires 0 <= index
    ensures Windows(s, index, n, grouped) != [] <==> index < |s|
  {
  }

  /** Grouping with no `int` overflow: the groups concatenate back to the
      list from `index` on. */
  lemma {:induction false} GroupedCover<E>(s: JavaList<E>, index: Int32, n: PosInt32)
    requires 0 <= index <= |s| && |s| + n <= INT32_MAX + 1
    ensures Flattened(Windows(s, index, n, true)) == s[index..]
    decreases |s| - index
  {
    var w := Windows(s, index, n, true);
    if index == |s| {
      assert w == [];
    } else {
      WindowsUnfold(s, index, n, true);
      var head := s[index..Min(index + n, |s|)];
      var next := if index + n >= |s| then |s| else index + n;
      var rest := Windows(s, next, n, true);
      GroupedCover(s, next, n);
      assert w[0] == head && w[1..] == rest;
      assert Flattened(w) == head + Flattened(rest);
      assert s[index..] == head + s[next..];
    }
  }

  /** Grouping with no `int` overflow: every group is non-empty, and all
      but the last have exactly `n` elements. */
  lemma {:induction false} GroupedSizes<E>(s: JavaList<E>, index: Int32, n: PosInt32)
    requires 0 <= index <= |s| && |s| + n <= INT32_MAX + 1
    ensures forall k :: 0 <= k < |Windows(s, index, n, true)| ==>
              |Windows(s, index, n, true)[k]| > 0
              && (k < |Windows(s, index, n, true)| - 1 ==> |Windows(s, index, n, true)[k]| == n)
    decreases |s| - index
  {
    var w := Windows(s, index, n, true);
    if index == |s| {
      assert w == [];
    } else {
      WindowsUnfold(s, index, n, true);
      var next := if index + n >= |s| then |s| else index + n;
      var rest := Windows(s, next, n, true);
      GroupedSizes(s, next, n);
      if next == |s| {
        assert rest == [];
      }
      forall k | 1 <= k < |w|
        ensures w[k] == rest[k - 1]
      {
      }
    }
  }

  /** Sliding with no `int` overflow: from `index`, one window per start
      position up to `size - n`, and at least one. */
  lemma {:induction false} SlidingCount<E>(s: JavaList<E>, index: Int32, n: PosInt32)
    requires 0 <= index < |s| && |s| + n <= INT32_MAX + 1
    ensures |Windows(s, index, n, false)| == Max(|s| - n - index, 0) + 1
    decreases |s| - index
  {
    WindowsUnfold(s, index, n, false);
    if index + n >= |s| {
      assert Windows(s, |s|, n, false) == [];
    } else {
      SlidingCount(s, index + 1, n);
    }
  }

  /** Sliding with no `int` overflow: window `k` from `index` holds the `n`
      elements from `index + k`, or as many as are left. */
  lemma {:induction false} SlidingAt<E>(s: JavaList<E>, index: Int32, n: PosInt32, k: nat)
    requires 0 <= index < |s| && |s| + n <= INT32_MAX + 1
    requires k < |Windows(s, index, n, false)|
    ensures index + k < |s| && Windows(s, index, n, false)[k] == s[index + k..Min(index + k + n, |s|)]
    decreases k
  {
    var w := Windows(s, index, n, false);
    WindowsUnfold(s, index, n, false);
    if k == 0 {
      assert w[0] == s[index..Min(index + n, |s|)];
    } else {
      SlidingCount(s, index, n);
      assert index + n < |s|;
      var rest := Windows(s, index + 1, n, false);
      assert w == [s[index..index + n]] + rest;
      assert w[k] == rest[k - 1];
      SlidingAt(s, index + 1, n, k - 1);
      assert (index + 1) + (k - 1) == index + k;
    }
  }

  /** Sliding with no `int` overflow: from `index`, one window per start
      position up to `size - n` (at least one), each holding `n` elements
      or as many as are left. */
  lemma SlidingShape<E>(s: JavaList<E>, index: Int32, n: PosInt32)
    requires 0 <= index < |s| && |s| + n <= INT32_MAX + 1
    ensures |Windows(s, index, n, false)| == Max(|s| - n - index, 0) + 1
    ensures forall k :: 0 <= k < |Windows(s, index, n, false)| ==>
              Windows(s, index, n, false)[k] == s[index + k..Min(index + k + n, |s|)]
  {
    SlidingCount(s, index, n);
    forall k | 0 <= k < |Windows(s, index, n, false)|
      ensures Windows(s, index, n, false)[k] == s[index + k..Min(index + k + n, |s|)]
    {
      SlidingAt(s, index, n, k);
    }
  }

  /** A one-element list has one window, though `hasNext()` reports false
      for it from the start (`0 < 1 - 1` fails). */
  lemma HasNextMissesOnlyWindow<E>(e: E, n: PosInt32, grouped: bool)
    ensures Windows([e], 0, n, grouped) == [[e]]
  {
    var s: JavaList<E> := [e];
    assert Wrap32(0 + n) == n && Min(n, 1) == 1;
    assert s[0..1] == [e];
    assert WindowNext(s, 0, n, grouped) == Step(Success([e]), 1);
    assert Windows([e], 1, n, grouped) == [];
  }

  /** At the last index, where `hasNext()` reports false, a window always
      remains. */
  lemma HasNextMissesLastWindow<E>(s: JavaList<E>, n: PosInt32, grouped: bool)
    requires |s| >= 1
    ensures Windows(s, |s| - 1, n, grouped) != []
  {
    WindowsRemainIff(s, |s| - 1, n, grouped);
  }

  /** `AdvancedList.GroupedListIterator`: consecutive groups of `n`
      elements of the live backing list. */
  class GroupedListIterator<E(==)> {
    const list: AdvancedList<E>
    const n: PosInt32
    var index: Int32

    constructor (list: AdvancedList<E>, n: PosInt32)
      ensures this.list == list && this.n == n && index == 0
    {
      this.list := list;
      this.n := n;
      index := 0;
    }

    /** The groups `next()` will still return, given the list as it is now. */
    ghost function Remaining(): seq<seq<E>>
      reads this, list
    {
      Windows(list.elements, index, n, true)
    }

    /** `iterator()`: the iterator itself. */
    method Iterator() returns (it: GroupedListIterator<E>)
      ensures it == this
    {
      return this;
    }

    /** `hasNext()` as written: `index < size - 1`. */
    method HasNext() returns (b: bool)
      ensures b <==> index < |list.elements| - 1
    {
      b := index < |list.elements| - 1;
    }

    /** `hasNext()` with the bound of `next()`'s own guard: true exactly
        when a group remains. */
    method HasNextIntended() returns (b: bool)
      ensures 0 <= index ==> (b <==> Remaining() != [])
    {
      b := index <= |list.elements| - 1;
      if 0 <= index {
        WindowsRemainIff(list.elements, index, n, true);
      }
    }

    /** `next()`: the next group, or NoSuchElementException past the end. */
    method Next() returns (r: Result<seq<E>, Error>)
      modifies this
      ensures Step(r, index) == WindowNext(list.elements, old(index), n, true)
      ensures old(Remaining()) == [] ==> r.Failure?
      ensures old(Remaining()) != [] ==> r == Success(old(Remaining())[0]) && Remaining() == old(Remaining())[1..]
    {
      var st := NextWindow(list.elements, index, n, true);
      index := st.index;
      r := st.result;
    }
  }

  /** `AdvancedList.SlidingListIterator`: windows of `n` elements of the
      live backing list, moving one position at a time. */
  class SlidingListIterator<E(==)> {
    const list: AdvancedList<E>
    const n: PosInt32
    var index: Int32

    constructor (list: AdvancedList<E>, n: PosInt32)
      ensures this.list == list && this.n == n && index == 0
    {
      this.list := list;
      this.n := n;
      index := 0;
    }

    /** The windows `next()` will still return, given the list as it is now. */
    ghost function Remaining(): seq<seq<E>>
      reads this, list
    {
      Windows(list.elements, index, n, false)
    }

    /** `iterator()`: the iterator itself. */
    method Iterator() returns (it: SlidingListIterator<E>)
      ensures it == this
    {
      return this;
    }

    /** `hasNext()` as written: `index < size - 1`. */
    method HasNext() returns (b: bool)
      ensures b <==> index < |list.elements| - 1
    {
      b := index < |list.elements| - 1;
    }

    /** `hasNext()` with the bound of `next()`'s own guard: true exactly
        when a window remains. */
    method HasNextIntended() returns (b: bool)
      ensures 0 <= index ==> (b <==> Remaining() != [])
    {
      b := index <= |list.elements| - 1;
      if 0 <= index {
        WindowsRemainIff(list.elements, index, n, false);
      }
    }

    /** `next()`: the next window, or NoSuchElementException past the end. */
    method Next() returns (r: Result<seq<E>, Error>)
      modifies this
      ensures Step(r, index) == WindowNext(list.elements, old(index), n, false)
      ensures old(Remaining()) == [] ==> r.Failure?
      ensures old(Remaining()) != [] ==> r == Success(old(Remaining())[0]) && Remaining() == old(Remaining())[1..]
    {
      var st := NextWindow(list.elements, index, n, false);
      index := st.index;
      r := st.result;
    }
  }

  /** The anonymous iterator of `reverseIterator()`: remembers the size at
      creation and walks the live backing list down from `size - 1`. */
  class ReverseListIterator<E(==)> {
    const list: AdvancedList<E>
    const size: Int32
    var index: Int32

    constructor (list: AdvancedList<E>)
      ensures this.list == list && size == |list.elements| && index == size - 1
    {
      this.list := list;
      size := |list.elements|;
      index := |list.elements| - 1;
    }

    /** The elements `next()` will still return, while the list keeps the
        size it had. */
    ghost function Remaining(): seq<E>
      reads this, list
    {
      if -1 <= index < |list.elements| then Reversed(list.elements[..index + 1]) else []
    }

    /** `hasNext()`: ConcurrentModificationException once the size changed,
        otherwise whether `index` is still an index. */
    method HasNext() returns (r: Result<bool, Error>)
      ensures |list.elements| != size ==> r == Failure(ConcurrentModification)
      ensures |list.elements| == size ==> r == Success(0 <= index < size)
      ensures |list.elements| == size && -1 <= index ==> r == Success(Remaining() != [])
    {
      if |list.elements| != size {
        return Failure(ConcurrentModification);
      }
      return Success(index < size && index >= 0);
    }

    /** `next()`: NoSuchElementException when `index` is negative or above
        the live size; `get(index)` raises when it equals the live size;
        otherwise the element, and `index` moves down. */
    method Next() returns (r: Result<E, Error>)
      modifies this
      ensures old(index) > |list.elements| || old(index) < 0 ==>
                r == Failure(NoSuchElement("next on empty iterator")) && index == old(index)
      ensures old(index) == |list.elements| ==> r == Failure(IndexOutOfBounds(old(index))) && index == old(index)
      ensures 0 <= old(index) < |list.elements| ==> r == Success(list.elements[old(index)]) && index == old(index) - 1
      ensures -1 <= old(index) < |list.elements| ==>
                (r.Failure? <==> old(Remaining()) == []) &&
                (r.Success? ==> r.value == old(Remaining())[0] && Remaining() == old(Remaining())[1..])
    {
      if index > |list.elements| || index < 0 {
        return Failure(NoSuchElement("next on empty iterator"));
      }
      if index >= |list.elements| {
        return Failure(IndexOutOfBounds(index));
      }
      var s := list.elements;
      assert s[..index + 1][..index] == s[..index];
      r := Success(s[index]);
      index := index - 1;
    }
  }
}
