/** `com.mindplex.commons.collections.Element`: a value with a weight and a
    counter. The `AtomicInteger` counter is a plain `int` field here. */
module Elements {
  import opened Wrappers
  import opened JavaLang
  import Check

  class Element<E(==)> {
    var value: E
    var weight: Int32
    var count: Int32

    constructor (value: E, weight: Int32)
      ensures this.value == value && this.weight == weight && count == 0
    {
      this.value := value;
      this.weight := weight;
      count := 0;
    }

    /** `of(value, weight)`: rejects a null value; a new element has
        count 0. */
    static method Of(value: Option<E>, weight: Int32) returns (r: Result<Element<E>, Error>)
      ensures value.None? ==> r == Failure(NullPointer)
      ensures value.Some? ==> r.Success? && fresh(r.value)
      ensures value.Some? ==> r.value.value == value.value && r.value.weight == weight && r.value.count == 0
    {
      var checked := Check.NotNull(value);
      if checked.Failure? {
        return Failure(checked.error);
      }
      var e := new Element(checked.value, weight);
      return Success(e);
    }

    method GetValue() returns (r: E)
      ensures r == value
    {
      return value;
    }

    /** `setValue(value)`: rejects null and then changes nothing; otherwise
        changes only the value. */
    method SetValue(value: Option<E>) returns (o: Outcome<Error>)
      modifies this
      ensures value.None? ==> o == Fail(NullPointer) && this.value == old(this.value)
      ensures value.Some? ==> o == Pass && this.value == value.value
      ensures weight == old(weight) && count == old(count)
    {
      var checked := Check.NotNull(value);
      if checked.Failure? {
        return Fail(checked.error);
      }
      this.value := checked.value;
      return Pass;
    }

    method GetWeight() returns (r: Int32)
      ensures r == weight
    {
      return weight;
    }

    /** `setWeight(weight)` changes only the weight. */
    method SetWeight(weight: Int32)
      modifies this
      ensures this.weight == weight && value == old(value) && count == old(count)
    {
      this.weight := weight;
    }

    method GetCount() returns (r: Int32)
      ensures r == count
    {
      return count;
    }

    /** `setCount(count)` changes only the count. */
    method SetCount(count: Int32)
      modifies this
      ensures this.count == count && value == old(value) && weight == old(weight)
    {
      this.count := count;
    }

    /** `incrementCount()`: stores and returns the old count plus one, in
        `int` arithmetic. */
    method IncrementCount() returns (r: Int32)
      modifies this
      ensures count == Wrap32(old(count) + 1) && r == count
      ensures old(count) < INT32_MAX ==> r == old(count) + 1
      ensures old(count) == INT32_MAX ==> r == INT32_MIN
      ensures value == old(value) && weight == old(weight)
    {
      count := Wrap32(count + 1);
      return count;
    }

    /** `decrementCount()`: stores and returns the old count minus one, in
        `int` arithmetic. */
    method DecrementCount() returns (r: Int32)
      modifies this
      ensures count == Wrap32(old(count) - 1) && r == count
      ensures old(count) > INT32_MIN ==> r == old(count) - 1
      ensures old(count) == INT32_MIN ==> r == INT32_MAX
      ensures value == old(value) && weight == old(weight)
    {
      count := Wrap32(count - 1);
      return count;
    }

    /** `equals(other)`: `other` is an element (null stands for any object
        that is not) whose value equals this one's; weight and count play no
        part. */
    predicate Equals(other: Element?<E>)
      reads this, other
    {
      other != null && value == other.value
    }

    /** `hashCode()`: `97 * 7 + value.hashCode()` in `int` arithmetic, with
        the value's own hash `h` as a parameter. */
    function HashCode(h: E -> Int32): (r: Int32)
      reads this
      ensures (r - (679 + h(value))) % TWO_32 == 0
      ensures h(value) <= INT32_MAX - 679 ==> r == 679 + h(value)
    {
      var hash := 7;
      Wrap32(97 * hash + h(value))
    }
  }

  /** Equality of elements is an equivalence that looks only at the value. */
  lemma EqualsIsEquivalence<E>(a: Element<E>, b: Element<E>, c: Element<E>)
    ensures a.Equals(a)
    ensures a.Equals(b) ==> b.Equals(a)
    ensures a.Equals(b) && b.Equals(c) ==> a.Equals(c)
    ensures a.Equals(b) <==> a.value == b.value
    ensures !a.Equals(null)
  {
  }

  /** Equal elements have equal hash codes. */
  lemma EqualsHashCode<E>(a: Element<E>, b: Element<E>, h: E -> Int32)
    requires a.Equals(b)
    ensures a.HashCode(h) == b.HashCode(h)
  {
  }
}
