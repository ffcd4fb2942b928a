# mindplex commons, modelled in Dafny

This project is a Dafny model of the core of the `com.mindplex.commons` Java library:

- **`AdvancedList`**: a list wrapper with Scala-style operations. It has map, flatMap, head/last, slices, take/drop, zips, windows, reversal, prefix and suffix tests, and string building. It also has the grouped, sliding and reverse iterators that read the wrapped list in place.
- **`Iterators`**: factories for read-only iterators, including empty, single, fill, tabulate, range, iterate, from, continually, padTo and a wrapping sliding iterator.
- **`Check`**: the argument guards notEmpty, isEmpty, hasText, notNull, or and and.
- **`Element`**: a weighted, counted value.
- **`Counter`**: a named 64-bit counter.
- **`AbstractMessageGateway` and `StandardMessageGateway`**: the lifecycle of a JMS gateway. This covers connecting, creating a session, a destination and producers, closing, and repairing a broken connection before each public operation. It also covers the calls each send, request/reply, receive and reject makes.

Java's `null` becomes `Option`. A thrown exception becomes the `Failure`/`Fail` arm of `Result`/`Outcome`, carrying the exception's kind and message. Java `int` and `long` are the subset types `Int32` and `Int64`. Where the source's arithmetic can overflow, the wrap-around is written out with `Wrap32`/`Wrap64`.

Each object whose fields the source updates is a `class`:

- a list;
- an iterator and its cursor;
- an element;
- a counter;
- a string builder;
- a gateway and the provider behind it.

The pure parts are functions, together with lemmas about them.

The messaging provider (module `MessageBroker`) is abstract. Every call into it may fail, and the model does not choose which calls do. Objects it creates are fresh numbered handles. Every call is appended, with its success, to an event log. The gateway contracts are stated against that log:

- which calls an operation makes, in order;
- that the log only grows;
- how many connections were opened, which shows that a broken connection is repaired at most once per call.

`StandardMessageGateway` extends `AbstractMessageGateway` in Java. In the model it holds a `base` gateway and works through it.

Behaviour of the code worth knowing:

- `verifyAlive` repairs whenever the connection reference is null, including after `close()` (StandardMessageGateway.java:387-394). A closed gateway is therefore not terminal.
- `initialize` creates no producers (AbstractMessageGateway.java:89-101). The `StandardMessageGateway` constructor creates them.
- Every failure of a provider call that reaches a caller of send, request, receive or reject is an `IllegalStateException` with a fixed message. The default fault callback throws `GatewayException` (AbstractMessageGateway.java:336-338), modelled as `GatewayFailure`. An empty destination name (AbstractMessageGateway.java:77) or an empty reject text (StandardMessageGateway.java:167-169) raises `IllegalArgumentException`.
- `reject` applies `notEmpty` to the text (StandardMessageGateway.java:167-169).
- Consumers created for a receive are never closed (StandardMessageGateway.java:246-247).
- `range`'s `hasNext` tests `index < end && 0 < index` (Iterators.java:115-117). A range that starts at or below zero, such as `range(0, n)`, therefore yields nothing; the model keeps that guard.
- A request or receive that times out returns `null` (StandardMessageGateway.java:253 and 366), which the model gives as `None`. The Javadoc of `request` and `receive` says an exception is raised instead (StandardMessageGateway.java:105-106, 123-124 and 143-144); the model follows the code.

## Model

| member | source | states |
|---|---|---|
| Check.NotEmptyWithMessage | src/com/mindplex/commons/base/Check.java:63-68 | Succeeds exactly for a non-null, non-empty string and returns it unchanged. Otherwise it is an IllegalArgument carrying the given message. |
| Check.NotEmpty | src/com/mindplex/commons/base/Check.java:44-49 | The same guard; its failure carries no message. |
| Check.IsEmpty | src/com/mindplex/commons/base/Check.java:80-82 | isEmpty: the string is null or has length 0. |
| Check.IsEmptyExactly | src/com/mindplex/commons/base/Check.java:80-82 | isEmpty is true exactly for null and for the empty string, so a string of blanks is not empty. |
| Check.NotEmptyIffNotIsEmpty | src/com/mindplex/commons/base/Check.java:44-82 | Both notEmpty guards pass exactly the strings for which isEmpty is false. |
| Check.NotNull | src/com/mindplex/commons/base/Check.java:120-125 | Returns the reference itself when non-null, otherwise a NullPointerException. |
| Check.ScanForText | src/com/mindplex/commons/base/Check.java:99-105 | The character loop returns true exactly when some character is not whitespace. |
| Check.HasText | src/com/mindplex/commons/base/Check.java:93-106 | As written: null raises NullPointerException (from the length call after the inverted guard), and every non-null string yields false. |
| Check.HasTextDisagrees | src/com/mindplex/commons/base/Check.java:84-106 | Any one-character string whose character is not whitespace has text as the documentation defines it, yet hasText returns false for it. |
| Check.HasTextIntended | src/com/mindplex/commons/base/Check.java:84-92 | True exactly for a non-null, non-empty string that is not whitespace only, as documented. |
| Check.OrWithMessage | src/com/mindplex/commons/base/Check.java:166-173 | True when some argument is true. When none is (including no arguments), an IllegalArgument carrying the message. |
| Check.Or | src/com/mindplex/commons/base/Check.java:141-148 | The same without a message. |
| Check.AndWithMessage | src/com/mindplex/commons/base/Check.java:214-221 | True when every argument is true (including none). When one is false, an IllegalArgument carrying the message. |
| Check.And | src/com/mindplex/commons/base/Check.java:189-196 | The same without a message. |
| Elements.Element.constructor | src/com/mindplex/commons/collections/Element.java:48-51 | A new element holds the value and the weight, with count 0. |
| Elements.Element.Of | src/com/mindplex/commons/collections/Element.java:63-65 | A null value raises NullPointerException. Otherwise a fresh element with that value and weight and count 0. |
| Elements.Element.GetValue | src/com/mindplex/commons/collections/Element.java:72-74 | Returns the current value. |
| Elements.Element.SetValue | src/com/mindplex/commons/collections/Element.java:83-85 | Replaces the value, or raises NullPointerException for null and leaves it. Weight and count are unchanged. |
| Elements.Element.GetWeight | src/com/mindplex/commons/collections/Element.java:92-94 | Returns the current weight. |
| Elements.Element.SetWeight | src/com/mindplex/commons/collections/Element.java:101-103 | Replaces the weight only. |
| Elements.Element.GetCount | src/com/mindplex/commons/collections/Element.java:110-112 | Returns the current count. |
| Elements.Element.SetCount | src/com/mindplex/commons/collections/Element.java:119-121 | Replaces the count only. |
| Elements.Element.IncrementCount | src/com/mindplex/commons/collections/Element.java:128-130 | Adds one to the count with int wrap-around (MAX_VALUE goes to MIN_VALUE) and returns the new count. |
| Elements.Element.DecrementCount | src/com/mindplex/commons/collections/Element.java:137-139 | Subtracts one with int wrap-around (MIN_VALUE goes to MAX_VALUE) and returns the new count. |
| Elements.Element.HashCode | src/com/mindplex/commons/collections/Element.java:160-164 | The hash is 97 * 7 + the value's hash in int arithmetic. It is congruent to 679 + h(value) modulo 2^32, and equal to it when that does not overflow. |
| Elements.Element.Equals | src/com/mindplex/commons/collections/Element.java:149-155 | equals: the other object is an element (null stands for any object that is not) and its value equals this one's. |
| Elements.EqualsIsEquivalence | src/com/mindplex/commons/collections/Element.java:149-155 | Equality by value is reflexive, symmetric and transitive, and holds exactly when the values are equal. It is false against an object that is not an element. |
| Elements.EqualsHashCode | src/com/mindplex/commons/collections/Element.java:149-164 | Equal elements have equal hash codes. |
| Stats.Counter.constructor | src/com/mindplex/commons/stats/Counter.java:29-31 | A new counter has the name and the value 0. |
| Stats.Counter.Of | src/com/mindplex/commons/stats/Counter.java:40-42 | A null name raises NullPointerException. Otherwise a fresh counter with that name at 0. |
| Stats.Counter.Increment | src/com/mindplex/commons/stats/Counter.java:49-51 | Adds one with long wrap-around and returns the new value. |
| Stats.Counter.IncrementBy | src/com/mindplex/commons/stats/Counter.java:60-62 | Adds the int argument with long wrap-around and returns the new value. |
| Stats.Counter.Get | src/com/mindplex/commons/stats/Counter.java:69-71 | Returns the current value. |
| Stats.Counter.Update | src/com/mindplex/commons/stats/Counter.java:81-83 | Sets the value to n and returns the previous value. |
| Stats.Counter.Reset | src/com/mindplex/commons/stats/Counter.java:88-90 | Sets the value to 0. |
| Stats.Counter.ToString | src/com/mindplex/commons/stats/Counter.java:98-100 | The text is the fixed prefix followed by a decimal that parses back to the counter's value. The decimal has no leading zero and no minus zero. |
| JavaLang.LongToStringRoundTrip | src/com/mindplex/commons/stats/Counter.java:98-100 | The decimal rendering of every long, sign included, parses back to that long. |
| AdvancedLists.AdvancedList.constructor | src/com/mindplex/commons/collections/AdvancedList.java:18 | A new list is empty. |
| AdvancedLists.AdvancedList.Map | src/com/mindplex/commons/collections/AdvancedList.java:32-41 | One result per element, in order: element i maps to f(element i). |
| AdvancedLists.MapAll | src/com/mindplex/commons/collections/AdvancedList.java:32-41 | The mapping loop over any sequence computes the elementwise image. |
| AdvancedLists.MapResult | src/com/mindplex/commons/collections/AdvancedList.java:410-419 | Mapping a result passes a failure through unchanged and maps a success elementwise. |
| AdvancedLists.AdvancedList.FlatMap | src/com/mindplex/commons/collections/AdvancedList.java:49-65 | The concatenation, in order, of the lists f returns for the elements. |
| AdvancedLists.AdvancedList.Head | src/com/mindplex/commons/collections/AdvancedList.java:77-82 | The first element, or NoSuchElement on an empty list. |
| AdvancedLists.AdvancedList.Last | src/com/mindplex/commons/collections/AdvancedList.java:88-93 | The last element, or NoSuchElement on an empty list (with head's message, as written). |
| AdvancedLists.AdvancedList.Find | src/com/mindplex/commons/collections/AdvancedList.java:100-107 | Null exactly when no element satisfies the predicate. Otherwise the first element that does. |
| AdvancedLists.AdvancedList.CopyRange | src/com/mindplex/commons/collections/AdvancedList.java:119-172 | The element-by-element copy loop shared by tail, init and slice returns exactly the elements from lo to hi. |
| AdvancedLists.AdvancedList.Tail | src/com/mindplex/commons/collections/AdvancedList.java:119-130 | All but the first element, or UnsupportedOperation on an empty list. |
| AdvancedLists.AdvancedList.Init | src/com/mindplex/commons/collections/AdvancedList.java:136-147 | All but the last element, or UnsupportedOperation on an empty list. |
| AdvancedLists.AdvancedList.Slice | src/com/mindplex/commons/collections/AdvancedList.java:156-172 | Empty when from is past the end or the capped range is empty. The elements from from up to min(to, size) otherwise. IndexOutOfBounds when a negative from starts a non-empty range. |
| AdvancedLists.AdvancedList.Take | src/com/mindplex/commons/collections/AdvancedList.java:179-195 | The first n elements, clamped to 0 and to the size. |
| AdvancedLists.AdvancedList.Drop | src/com/mindplex/commons/collections/AdvancedList.java:202-218 | All but the first n elements. It is the backing list itself exactly when n < 1. |
| AdvancedLists.AdvancedList.TakeRight | src/com/mindplex/commons/collections/AdvancedList.java:226-244 | The last n elements. It is the backing list itself exactly when n exceeds the size. |
| AdvancedLists.AdvancedList.DropRight | src/com/mindplex/commons/collections/AdvancedList.java:251-269 | All but the last n elements. It is the backing list itself exactly when n < 1. |
| ListSpec.TakeDropSplit | src/com/mindplex/commons/collections/AdvancedList.java:179-218 | take(n) followed by drop(n) is the whole list. |
| AdvancedLists.AdvancedList.Zip | src/com/mindplex/commons/collections/AdvancedList.java:283-294 | As long as the shorter list, pairing elements at the same position. |
| AdvancedLists.AdvancedList.ZipAll | src/com/mindplex/commons/collections/AdvancedList.java:304-323 | As long as the longer list, each side padded with its filler value. |
| AdvancedLists.AdvancedList.ZipWithIndex | src/com/mindplex/commons/collections/AdvancedList.java:329-338 | Each element paired with its index. |
| AdvancedLists.AdvancedList.Sliding | src/com/mindplex/commons/collections/AdvancedList.java:351-353 | A size below one raises IllegalArgument with the source's message. Otherwise a fresh sliding iterator over this very list at index 0. |
| AdvancedLists.AdvancedList.Grouped | src/com/mindplex/commons/collections/AdvancedList.java:360-362 | A size below one raises IllegalArgument. Otherwise a fresh grouped iterator over this very list at index 0. |
| AdvancedLists.AdvancedList.CollectDownFrom | src/com/mindplex/commons/collections/AdvancedList.java:374-380 | A loop of get(i) for i from start down to 0 returns the first start + 1 elements reversed. It is empty for a negative start and raises IndexOutOfBounds when start is not an index. |
| AdvancedLists.AdvancedList.Reverse | src/com/mindplex/commons/collections/AdvancedList.java:374-380 | As written: the loop begins with get(size), so reverse raises IndexOutOfBounds(size) on every list, the empty one included. |
| AdvancedLists.AdvancedList.ReverseIntended | src/com/mindplex/commons/collections/AdvancedList.java:374-380 | With the loop starting at size - 1: the reversal, where element k is element size - 1 - k. |
| ListSpec.ReversedTwice | src/com/mindplex/commons/collections/AdvancedList.java:374-380 | Reversing twice gives back the list. |
| AdvancedLists.AdvancedList.ReverseMap | src/com/mindplex/commons/collections/AdvancedList.java:410-419 | As written it maps the result of reverse, so it raises IndexOutOfBounds(size) on every list. |
| AdvancedLists.AdvancedList.ReverseIterator | src/com/mindplex/commons/collections/AdvancedList.java:382-386 | A fresh iterator over this very list, recording the size and starting at size - 1. What it will yield is the reversal. |
| AdvancedLists.ReverseListIterator.constructor | src/com/mindplex/commons/collections/AdvancedList.java:382-386 | Reads the given list in place, recording its size and starting at size - 1. |
| AdvancedLists.ReverseListIterator.HasNext | src/com/mindplex/commons/collections/AdvancedList.java:388-393 | ConcurrentModification when the list's size changed since creation. Otherwise whether the index is within the recorded size, which is whether anything remains. |
| AdvancedLists.ReverseListIterator.Next | src/com/mindplex/commons/collections/AdvancedList.java:395-402 | NoSuchElement outside the list. get's IndexOutOfBounds at the size. Otherwise the element at the index, moving down by one, and what remains shrinks by exactly that element. |
| AdvancedLists.AdvancedList.StartsWith | src/com/mindplex/commons/collections/AdvancedList.java:432-441 | False for an empty argument. For one no longer than the list, whether it is the list's prefix. For a longer one whose prefix is the whole list, IndexOutOfBounds, else false. |
| AdvancedLists.AdvancedList.EndsWith | src/com/mindplex/commons/collections/AdvancedList.java:448-467 | True exactly when the argument is non-empty, no longer than the list, and equal to its trailing elements. |
| AdvancedLists.AdvancedList.AddString | src/com/mindplex/commons/collections/AdvancedList.java:492-497 | Appends every element's text, in order, to the builder and returns the builder's whole content. |
| AdvancedLists.AdvancedList.AppendJoined | src/com/mindplex/commons/collections/AdvancedList.java:505-515 | Appends the elements' texts joined by the separator, with no separator at either end. |
| AdvancedLists.AdvancedList.AddStringSep | src/com/mindplex/commons/collections/AdvancedList.java:505-515 | Appends the elements' texts joined by the separator and returns the builder's content. |
| AdvancedLists.AdvancedList.AddStringWrapped | src/com/mindplex/commons/collections/AdvancedList.java:525-540 | Appends start, the joined texts and end, and returns the builder's content. |
| AdvancedLists.AdvancedList.MkString | src/com/mindplex/commons/collections/AdvancedList.java:547-559 | The elements' texts joined by the separator. |
| AdvancedLists.AdvancedList.MkStringWrapped | src/com/mindplex/commons/collections/AdvancedList.java:568-583 | Start, the joined texts, then end. |
| ListSpec.JoinedEmptySeparator | src/com/mindplex/commons/collections/AdvancedList.java:492-515 | Joining with the empty separator is plain concatenation, so addString(sb) and addString(sb, "") agree. |
| AdvancedLists.AdvancedList.Add | src/com/mindplex/commons/collections/AdvancedList.java:604-607 | Appends the value at the end and returns the list itself. |
| AdvancedLists.AdvancedList.Set | src/com/mindplex/commons/collections/AdvancedList.java:614-616 | Despite its name, appends the value at the end and returns the list itself. |
| AdvancedLists.AdvancedList.Remove | src/com/mindplex/commons/collections/AdvancedList.java:623-625 | Removes the first occurrence only. Reports a change exactly when the element was present. |
| ListSpec.RemoveFirstCounts | src/com/mindplex/commons/collections/AdvancedList.java:623-625 | Removing the first occurrence lowers that element's count by one and leaves every other element's count. |
| AdvancedLists.AdvancedList.RemoveAll | src/com/mindplex/commons/collections/AdvancedList.java:632-634 | Keeps, in order, the elements that are not in the collection. Reports a change exactly when some element was in it. |
| AdvancedLists.AdvancedList.RetainAll | src/com/mindplex/commons/collections/AdvancedList.java:641-643 | Keeps, in order, the elements in the collection. Reports a change exactly when some element was not. |
| ListSpec.FilteredByMembers | src/com/mindplex/commons/collections/AdvancedList.java:632-643 | An element survives removeAll/retainAll exactly when it was in the list and is outside/inside the collection. |
| AdvancedLists.AdvancedList.Get | src/com/mindplex/commons/collections/AdvancedList.java:650-652 | The element at an index within the list, IndexOutOfBounds otherwise. |
| AdvancedLists.AdvancedList.Contains | src/com/mindplex/commons/collections/AdvancedList.java:659-661 | True exactly when some element equals the argument. |
| AdvancedLists.AdvancedList.ContainsAll | src/com/mindplex/commons/collections/AdvancedList.java:668-670 | True exactly when every member of the collection occurs in the list. |
| AdvancedLists.AdvancedList.IsEmpty | src/com/mindplex/commons/collections/AdvancedList.java:676-678 | True exactly when the list has no elements. |
| AdvancedLists.AdvancedList.Size | src/com/mindplex/commons/collections/AdvancedList.java:684-686 | The number of elements. |
| AdvancedLists.AdvancedList.Clear | src/com/mindplex/commons/collections/AdvancedList.java:691-693 | The list becomes empty. |
| AdvancedLists.NextWindow | src/com/mindplex/commons/collections/AdvancedList.java:755-782 | The next() loop of both window iterators computes what the next-window function says. This covers the int sum index + n that can wrap, the cap at the size, the negative index that get rejects, and the index left behind. |
| AdvancedLists.WindowsRemainIff | src/com/mindplex/commons/collections/AdvancedList.java:755-782 | From any index at or after 0, some window remains exactly while the index is before the end. |
| AdvancedLists.GroupedCover | src/com/mindplex/commons/collections/AdvancedList.java:755-782 | Without overflow, the groups from an index concatenate back to the rest of the list. |
| AdvancedLists.GroupedSizes | src/com/mindplex/commons/collections/AdvancedList.java:755-782 | Without overflow, every group is non-empty and all but the last hold exactly n elements. |
| AdvancedLists.SlidingCount | src/com/mindplex/commons/collections/AdvancedList.java:810-837 | Without overflow, there is one window per start position up to size - n, and at least one. |
| AdvancedLists.SlidingAt | src/com/mindplex/commons/collections/AdvancedList.java:810-837 | Without overflow, window k starts at index + k and holds the n elements from there, or as many as are left. |
| AdvancedLists.SlidingShape | src/com/mindplex/commons/collections/AdvancedList.java:810-837 | Both of the above at once: the number of sliding windows and the contents of each. |
| AdvancedLists.GroupedListIterator.constructor | src/com/mindplex/commons/collections/AdvancedList.java:739-745 | The iterator reads the given list in place, with the group size, from index 0. |
| AdvancedLists.GroupedListIterator.Iterator | src/com/mindplex/commons/collections/AdvancedList.java:747-749 | Returns the iterator itself. |
| AdvancedLists.GroupedListIterator.HasNext | src/com/mindplex/commons/collections/AdvancedList.java:751-753 | As written: true exactly when the index is below size - 1. |
| AdvancedLists.HasNextMissesOnlyWindow | src/com/mindplex/commons/collections/AdvancedList.java:751-782 | A one-element list has exactly one window, although hasNext is false from the start. |
| AdvancedLists.HasNextMissesLastWindow | src/com/mindplex/commons/collections/AdvancedList.java:751-837 | At the last index, where hasNext reports false, a window still remains for both iterators. |
| AdvancedLists.GroupedListIterator.HasNextIntended | src/com/mindplex/commons/collections/AdvancedList.java:751-753 | With the guard index < size, which next() itself uses: true exactly when a group remains. |
| AdvancedLists.GroupedListIterator.Next | src/com/mindplex/commons/collections/AdvancedList.java:755-782 | Returns, or raises, what the next-window function gives for the list as it is now, and moves the index. When groups remain it returns the first, and the rest remain. |
| AdvancedLists.SlidingListIterator.constructor | src/com/mindplex/commons/collections/AdvancedList.java:797-804 | The iterator reads the given list in place, with the window size, from index 0. |
| AdvancedLists.SlidingListIterator.Iterator | src/com/mindplex/commons/collections/AdvancedList.java:843-845 | Returns the iterator itself. |
| AdvancedLists.SlidingListIterator.HasNext | src/com/mindplex/commons/collections/AdvancedList.java:806-808 | As written: true exactly when the index is below size - 1. |
| AdvancedLists.SlidingListIterator.HasNextIntended | src/com/mindplex/commons/collections/AdvancedList.java:806-808 | With the guard index < size: true exactly when a window remains. |
| AdvancedLists.SlidingListIterator.Next | src/com/mindplex/commons/collections/AdvancedList.java:810-837 | As for the grouped iterator, advancing by one. |
| Iterators.EmptyIterator.HasNext | src/com/mindplex/commons/collections/Iterators.java:15-17 | Always false. |
| Iterators.EmptyIterator.Next | src/com/mindplex/commons/collections/Iterators.java:19-21 | Always NoSuchElement. |
| Iterators.SingleIterator.constructor | src/com/mindplex/commons/collections/Iterators.java:29-33 | What remains is the one element. |
| Iterators.SingleIterator.HasNext | src/com/mindplex/commons/collections/Iterators.java:34-36 | True exactly while the element has not been returned. |
| Iterators.SingleIterator.Next | src/com/mindplex/commons/collections/Iterators.java:38-44 | The element once, then NoSuchElement. Nothing remains afterwards. |
| Iterators.FillIterator.constructor | src/com/mindplex/commons/collections/Iterators.java:56-60 | n computations remain (none for a negative n). |
| Iterators.FillIterator.HasNext | src/com/mindplex/commons/collections/Iterators.java:61-63 | True exactly while computations remain. |
| Iterators.FillIterator.Next | src/com/mindplex/commons/collections/Iterators.java:65-71 | Returns the computed value and one fewer remains, or NoSuchElement when none do. |
| Iterators.Tabulated | src/com/mindplex/commons/collections/Iterators.java:79-101 | The values f(from), f(from + 1), …, f(n - 1), and none when n is not above from. |
| Iterators.TabulateIterator.constructor | src/com/mindplex/commons/collections/Iterators.java:79-83 | What remains is f(0) … f(n - 1). |
| Iterators.TabulateIterator.HasNext | src/com/mindplex/commons/collections/Iterators.java:84-86 | True exactly while values remain. |
| Iterators.TabulateIterator.Next | src/com/mindplex/commons/collections/Iterators.java:88-95 | f at the current index, which is the first remaining value, and the rest remain. NoSuchElement at the end. |
| Iterators.RangedIgnoresWrap | src/com/mindplex/commons/collections/Iterators.java:115-126 | The int range agrees with the arithmetic progression on unbounded integers: the range's guard stops it before index += step can wrap. |
| Iterators.ProgressionTerms | src/com/mindplex/commons/collections/Iterators.java:115-126 | Term k of the range is start + k * step. The term after the last fails the guard 0 < index < end. |
| Iterators.RangeFromNonPositiveIsEmpty | src/com/mindplex/commons/collections/Iterators.java:115-117 | A range starting at or below zero is empty whatever its end and step, because of the `0 < index` guard. |
| Iterators.RangeIterator.constructor | src/com/mindplex/commons/collections/Iterators.java:107-114 | What remains is the range from start by step. |
| Iterators.RangeIterator.HasNext | src/com/mindplex/commons/collections/Iterators.java:115-117 | As written: 0 < index < end, which is whether values remain. |
| Iterators.RangeIterator.Next | src/com/mindplex/commons/collections/Iterators.java:119-126 | The current index, which is the first remaining value, and the rest remain. NoSuchElement at the end. |
| Iterators.RangeStep | src/com/mindplex/commons/collections/Iterators.java:107-113 | A zero step raises IllegalArgument. Otherwise a fresh iterator over the range. |
| Iterators.Range | src/com/mindplex/commons/collections/Iterators.java:103-105 | The range with step 1. |
| Iterators.IterateIterator.constructor | src/com/mindplex/commons/collections/Iterators.java:134-140 | Starts with nothing returned yet. |
| Iterators.IterateIterator.HasNext | src/com/mindplex/commons/collections/Iterators.java:141-143 | Always true. |
| Iterators.IterateIterator.Next | src/com/mindplex/commons/collections/Iterators.java:145-153 | Call k returns f applied k times to the start. |
| Iterators.FromIterator.constructor | src/com/mindplex/commons/collections/Iterators.java:165-171 | Starts with nothing returned yet. |
| Iterators.FromIterator.HasNext | src/com/mindplex/commons/collections/Iterators.java:172-174 | Always true. |
| Iterators.FromIterator.Next | src/com/mindplex/commons/collections/Iterators.java:176-184 | Call k returns start + k * step in int arithmetic, wrapping around. |
| Iterators.From | src/com/mindplex/commons/collections/Iterators.java:161-163 | A fresh stepping iterator with step 1. |
| Iterators.ContinuallyIterator.HasNext | src/com/mindplex/commons/collections/Iterators.java:197-199 | Always true. |
| Iterators.ContinuallyIterator.Next | src/com/mindplex/commons/collections/Iterators.java:201-203 | Returns the computed value. |
| Iterators.PadToIterator.constructor | src/com/mindplex/commons/collections/Iterators.java:211-217 | What remains is the list followed by copies of the value up to the length. |
| Iterators.PadToIterator.HasNext | src/com/mindplex/commons/collections/Iterators.java:218-220 | True exactly while something remains. |
| Iterators.PadToIterator.Next | src/com/mindplex/commons/collections/Iterators.java:222-232 | Returns the first remaining value and the rest remain. NoSuchElement at the end. |
| Iterators.WrapCopyFits | src/com/mindplex/commons/collections/Iterators.java:296-303 | When the window fits, the copy loop copies exactly the elements from the index. |
| Iterators.WrapCopyWraps | src/com/mindplex/commons/collections/Iterators.java:296-303 | When it does not, the loop copies to the end, spends one round resetting the position to 0 without copying, and carries on from the start. |
| Iterators.NextSlide | src/com/mindplex/commons/collections/Iterators.java:284-311 | The next() loop computes what the wrapping next-window function says. |
| Iterators.SlideAgreesWhenFits | src/com/mindplex/commons/collections/Iterators.java:284-311 | When the window size fits the list, this iterator yields the same windows as AdvancedList's sliding iterator. |
| Iterators.SlidingListIterator.constructor | src/com/mindplex/commons/collections/Iterators.java:271-278 | Holds the list and the window size, at index 0. |
| Iterators.SlidingListIterator.HasNext | src/com/mindplex/commons/collections/Iterators.java:280-282 | As written: true exactly when the index is below size - 1. |
| Iterators.SlidingListIterator.Next | src/com/mindplex/commons/collections/Iterators.java:284-311 | Returns, or raises, what the wrapping next-window function gives, and moves the index. When windows remain it returns the first. |
| Iterators.SlidingListIterator.Iterator | src/com/mindplex/commons/collections/Iterators.java:317-319 | A fresh iterator over the same list and size, from index 0. |
| Iterators.Sliding | src/com/mindplex/commons/collections/Iterators.java:259-278 | A window size below one raises IllegalArgument. Otherwise a fresh iterator at index 0. |
| MessageBroker.Broker.Perform | src/com/mindplex/commons/messaging/AbstractMessageGateway.java:89-101 | Any provider call that yields nothing appends exactly one event, with its success, and issues no handle. |
| MessageBroker.Broker.Obtain | src/com/mindplex/commons/messaging/AbstractMessageGateway.java:112-121 | A provider call that yields an object appends one event. On success it issues the next fresh handle. |
| MessageBroker.Broker.ReceiveOn | src/com/mindplex/commons/messaging/StandardMessageGateway.java:238-261 | A receive appends one event. It fails, times out with nothing, or yields a fresh message handle. |
| MessageBroker.Broker.TextOf | src/com/mindplex/commons/messaging/StandardMessageGateway.java:238-261 | Reading a message's text appends one event and yields the provider's text for that message. |
| AbstractMessaging.ExceptionListenerFunction | src/com/mindplex/commons/messaging/AbstractMessageGateway.java:320-339 | The default fault callback always raises the gateway's "provider connection failed" error. |
| AbstractMessaging.ClosingIsIdempotent | src/com/mindplex/commons/messaging/AbstractMessageGateway.java:229-244 | Closing an already closed gateway state changes nothing. |
| AbstractMessaging.AbstractMessageGateway.constructor | src/com/mindplex/commons/messaging/AbstractMessageGateway.java:76-79 | A gateway object starts closed, with no connection, session or destination. |
| AbstractMessaging.AbstractMessageGateway.Create | src/com/mindplex/commons/messaging/AbstractMessageGateway.java:76-101 | An empty destination name raises IllegalArgument without calling the provider. Otherwise initialize runs: on success the gateway is open with three fresh handles and the log holds exactly the initialize calls. At most one connection is opened. |
| AbstractMessaging.AbstractMessageGateway.Initialize | src/com/mindplex/commons/messaging/AbstractMessageGateway.java:89-101 | Opens exactly one connection, and stores it as soon as it is obtained. On success all the creation, listener and start calls follow in order, and the gateway is open with fresh connection, session and destination. Any failure is IllegalState("Failed to initialize…") and leaves closed as it was. A failed connection request changes nothing else. |
| AbstractMessaging.AbstractMessageGateway.SetUp | src/com/mindplex/commons/messaging/AbstractMessageGateway.java:91-97 | After the connection: listener, session, queue and start are called in that order, each result stored as soon as obtained. No further connection is opened. |
| AbstractMessaging.AbstractMessageGateway.CreateDestination | src/com/mindplex/commons/messaging/AbstractMessageGateway.java:112-121 | Without a session, IllegalState and no provider call. Otherwise exactly one queue-creation call on the session, yielding a fresh handle or IllegalState. |
| AbstractMessaging.AbstractMessageGateway.CreateMessage | src/com/mindplex/commons/messaging/AbstractMessageGateway.java:130-155 | The same for a text message (no text for the no-argument form). |
| AbstractMessaging.AbstractMessageGateway.CreateProducer | src/com/mindplex/commons/messaging/AbstractMessageGateway.java:164-189 | The same for a producer (no destination for the no-argument form). |
| AbstractMessaging.AbstractMessageGateway.CreateConsumer | src/com/mindplex/commons/messaging/AbstractMessageGateway.java:198-223 | The same for a consumer. |
| AbstractMessaging.AbstractMessageGateway.Close | src/com/mindplex/commons/messaging/AbstractMessageGateway.java:229-244 | Marks the gateway closed and clears the connection reference, swallowing provider failures. It closes the session if there is one, and the connection if there is one and the session close succeeded. Nothing is issued and no connection is opened. |
| AbstractMessaging.AbstractMessageGateway.Destroy | src/com/mindplex/commons/messaging/AbstractMessageGateway.java:264-269 | Always ends in close, with close's effect whatever the state was. |
| AbstractMessaging.AbstractMessageGateway.IsConnectionValid | src/com/mindplex/commons/messaging/AbstractMessageGateway.java:254-256 | True exactly when a connection reference is held. |
| AbstractMessaging.AbstractMessageGateway.IsClosed | src/com/mindplex/commons/messaging/AbstractMessageGateway.java:276-278 | The closed flag. |
| StandardMessaging.StandardMessageGateway.constructor | src/com/mindplex/commons/messaging/StandardMessageGateway.java:51-56 | Holds the base gateway and the two producers. |
| StandardMessaging.StandardMessageGateway.Of | src/com/mindplex/commons/messaging/StandardMessageGateway.java:51-70 | An empty destination name fails before any provider call. On success the gateway is open on that destination. The log holds exactly the initialize calls, then the default producer, the invalid-message queue and a producer on that queue, and the two producers are the fresh handles issued. At most one connection is opened. |
| StandardMessaging.StandardMessageGateway.ResetProducer | src/com/mindplex/commons/messaging/StandardMessageGateway.java:422-428 | Without a session, IllegalState("Failed to reset…") and no provider call. Otherwise one producer call for the default destination: on success it becomes the new producer, on failure the old producer is kept. |
| StandardMessaging.StandardMessageGateway.VerifyAlive | src/com/mindplex/commons/messaging/StandardMessageGateway.java:387-394 | With a connection, nothing happens. Without one, exactly one initialize and one producer reset: the log holds exactly those calls on success, and exactly one connection is opened. |
| StandardMessaging.StandardMessageGateway.Reinitialize | src/com/mindplex/commons/messaging/StandardMessageGateway.java:391-392 | One initialize, then, if it succeeds, one producer reset; exactly one connection is opened. On success the log gains exactly those calls and the gateway is open with fresh connection, session, destination and producer. A failed initialize leaves closed as it was; a failed reset leaves the gateway open with the old producer. |
| StandardMessaging.StandardMessageGateway.Restart | src/com/mindplex/commons/messaging/StandardMessageGateway.java:407-411 | Close, initialize, reset: exactly one connection is opened. On success the log holds the close calls on the old session and connection, then exactly the initialize calls and the default producer's creation. The gateway is then open on the fresh connection, session and destination, with the fresh producer. A failed initialize leaves it closed. A failed reset keeps the old producer. |
| StandardMessaging.StandardMessageGateway.DoSend | src/com/mindplex/commons/messaging/StandardMessageGateway.java:176-185 | After verifyAlive, one send on the default producer. Any failure destroys the gateway and raises IllegalState("Failed to send message."). A gateway that was connected keeps its state on success. |
| StandardMessaging.StandardMessageGateway.DoSendTo | src/com/mindplex/commons/messaging/StandardMessageGateway.java:193-209 | After verifyAlive: a one-shot producer for the destination, one send on it, and its close. Any failure destroys the gateway. |
| StandardMessaging.StandardMessageGateway.SendOnce | src/com/mindplex/commons/messaging/StandardMessageGateway.java:197-203 | On success the log ends with the producer creation, the send on that fresh producer and its close. |
| StandardMessaging.StandardMessageGateway.DoSendInvalidMessage | src/com/mindplex/commons/messaging/StandardMessageGateway.java:216-225 | After verifyAlive, one send on the invalid-message producer. Any failure destroys the gateway and raises IllegalState("Failed to send invalid message."). |
| StandardMessaging.StandardMessageGateway.DoListen | src/com/mindplex/commons/messaging/StandardMessageGateway.java:238-261 | After verifyAlive: one consumer for the destination and one receive with the timeout. Then either no answer, or the text of the fresh message read from the provider, and the log ends with exactly those calls. Any failure destroys the gateway and raises IllegalState("Failed to listen."). |
| StandardMessaging.ListenedAfter | src/com/mindplex/commons/messaging/StandardMessageGateway.java:238-261 | Appending a listen's calls leaves them as the log's tail, with the answer's provenance. |
| StandardMessaging.StandardMessageGateway.ListenOnce | src/com/mindplex/commons/messaging/StandardMessageGateway.java:242-256 | On success the consumer, receive and text-read calls end the log, with the answer's provenance, on the current session. |
| StandardMessaging.StandardMessageGateway.ListenOn | src/com/mindplex/commons/messaging/StandardMessageGateway.java:242-256 | The consumer and receive calls, plus the text read when a message arrives, appended in order with fresh handles for the consumer and the message. |
| StandardMessaging.StandardMessageGateway.DoSendAndListen | src/com/mindplex/commons/messaging/StandardMessageGateway.java:335-374 | After verifyAlive: a fresh temporary reply queue set as the message's reply-to, and a one-shot producer that sends and is closed. Then a consumer on that reply queue and one receive, giving no answer or the reply's text; the log ends with exactly those calls. Any failure destroys the gateway and raises IllegalState("Failed to complete request/reply."). |
| StandardMessaging.RequestedAfter | src/com/mindplex/commons/messaging/StandardMessageGateway.java:335-374 | Posting a request and then listening on its reply queue leaves exactly the request/reply calls at the log's tail. |
| StandardMessaging.StandardMessageGateway.RequestReply | src/com/mindplex/commons/messaging/StandardMessageGateway.java:339-368 | On success the log ends with the whole request/reply over a reply queue issued during the call. |
| StandardMessaging.StandardMessageGateway.PostRequest | src/com/mindplex/commons/messaging/StandardMessageGateway.java:339-351 | The sending half: temporary queue, reply-to, producer, send and close, in order, with fresh queue and producer handles. |
| StandardMessaging.StandardMessageGateway.AskReply | src/com/mindplex/commons/messaging/StandardMessageGateway.java:339-343 | A fresh temporary queue, then set as the message's reply-to. |
| StandardMessaging.StandardMessageGateway.ProduceOnce | src/com/mindplex/commons/messaging/StandardMessageGateway.java:345-351 | A fresh producer, one send on it, and its close. |
| StandardMessaging.StandardMessageGateway.Send | src/com/mindplex/commons/messaging/StandardMessageGateway.java:82-84 | The first call is the text-message creation on the current session. Without a session, IllegalState("Failed to create jms text message.") and no provider call. On success the last call is the send of that fresh message on the producer. A send failure destroys the gateway. |
| StandardMessaging.StandardMessageGateway.Compose | src/com/mindplex/commons/messaging/StandardMessageGateway.java:96-97 | Without a session, IllegalState("Failed to create jms text message.") and no provider call. Otherwise the message creation, then, if it succeeds, the queue creation for the destination; on success the two fresh handles. |
| StandardMessaging.StandardMessageGateway.SendTo | src/com/mindplex/commons/messaging/StandardMessageGateway.java:96-98 | The first call creates the message and the second creates the queue for the named destination, both on the current session. On success the log ends with the one-shot send of that fresh message to that fresh queue. Failures before the send leave the gateway as it was. A send failure destroys it. |
| StandardMessaging.StandardMessageGateway.Request | src/com/mindplex/commons/messaging/StandardMessageGateway.java:115-117 | The message is created first, then a request/reply to the default destination. On success the log ends with the whole request/reply of that fresh message over a reply queue issued during the call, and the answer is the reply's text or none on timeout. A failure to create the message leaves the gateway as it was; a request failure destroys it. |
| StandardMessaging.StandardMessageGateway.RequestTo | src/com/mindplex/commons/messaging/StandardMessageGateway.java:134-136 | As Request, to a queue created for the named destination: the first call creates the message and the second the queue, and on success the log ends with the request/reply of that message to that fresh queue. |
| StandardMessaging.StandardMessageGateway.Receive | src/com/mindplex/commons/messaging/StandardMessageGateway.java:153-155 | The first call is the queue creation for the name, then a listen. On success the log ends with the consumer and receive on that fresh queue, and the answer is the received message's text or none on timeout. A failure to create the queue leaves the gateway as it was; a listen failure destroys it. |
| StandardMessaging.StandardMessageGateway.Reject | src/com/mindplex/commons/messaging/StandardMessageGateway.java:167-169 | An empty text raises IllegalArgument with no provider call. Otherwise the message is created, then sent on the invalid-message producer. A send failure destroys the gateway. |

## Left out

- Message transport and delivery. What a send delivers, and which message a receive gets, are outside the model. A received message's text is a function of its handle. The `TextMessage` cast is the text read, which may fail.
- Which provider calls fail. Every call may fail, and the contracts hold whichever do: the model does not choose.
- The JMS connection factory and the listener registration's callback thread. `MessagingFactory` is not part of this model. The fault callback is modelled only as the value it produces.
- `getInvalidMessageChannel()`: a parameter of `StandardMessageGateway.Of`, because its configuration source is not part of this model.
- The two-argument `doSendAndListen(message, timeout)` (StandardMessageGateway.java:279-316). No public operation calls it. It also closes the shared default producer after one use.
- The Java constructors of both gateways: modelled as the static `Create` and `Of`, which return a failure where the constructors throw.
- Concurrency: the fault callback racing with calls, `AtomicBoolean`/`AtomicLong` atomicity, and blocking for the receive timeout. Each call is modelled as one atomic step.
- The getters `getSession`, `getConnection` and `getDestination`: the model reads the fields directly.
- `remove()` of every iterator: it always raises UnsupportedOperation and changes nothing.
- `Tuple`'s setters and `toString`: a tuple is an immutable value here.
- `AdvancedList.iterator()` and `Iterators.iterator(Collection)`: each hands out the Java collection's own iterator.
- `containsSlice` and a nameless iterator factory: both are commented out in the source.
- Null elements inside lists and null `Boolean` arguments to `or`/`and`: lists hold values, and the arguments are `bool`.
- Callbacks (`Function`, `Computation`, the element `toString`): pure Dafny functions. A `Computation`'s result is a parameter of each `next()`, since computations may have effects.
- `Iterators.sliding` and `padTo` take a snapshot of the Java list passed in: a later change by the caller is not seen, where Java would see it.
- AdvancedLists.AdvancedList.Add: requires fewer than 2^31 - 1 elements, because `size()` is an `int`. Java behaviour beyond that is undefined. Set has the same bound.
- Element `equals` against an object that is not an `Element` is modelled by `null`, for which `Equals` is false; objects of other classes are not otherwise modelled.
- Element and Counter `toString` of the value, and the hash code of a null value: the value's hash is a parameter, and values are never null.
- Files, futures, clocks, savers and load-balanced lists: not part of this model.

## Findings

| source | as written | input that shows it | evidently intended | confidence | as-written member | corrected member |
|---|---|---|---|---|---|---|
| src/com/mindplex/commons/collections/AdvancedList.java:374-380 | the loop starts at `i = elements.size()`, so its first `get` is out of range | any list, e.g. `[]`: `get(0)` raises | start at `size() - 1`, returning the reversal | high (not executed) | AdvancedLists.AdvancedList.Reverse | AdvancedLists.AdvancedList.ReverseIntended |
| src/com/mindplex/commons/base/Check.java:93-106 | the guard `if (!isEmpty(suspect)) return false` is inverted | `"a"` gives false; `null` raises NullPointerException | the documented result: true for a non-null, non-empty string that is not all whitespace | high (not executed) | Check.HasTextDisagrees | Check.HasTextIntended |
| src/com/mindplex/commons/collections/AdvancedList.java:751-753 | `hasNext()` is `index < size() - 1`, but `next()` still has a window at `size() - 1` | the one-element list `[e]`: hasNext is false, while next returns `[e]` | `index < size()`, the bound next() checks | medium (not executed) | AdvancedLists.HasNextMissesOnlyWindow | AdvancedLists.GroupedListIterator.HasNextIntended |
