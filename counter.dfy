/** `com.mindplex.commons.stats.Counter`: a named `long` counter. The
    `AtomicLong` is a plain field here. */
module Stats {
  import opened Wrappers
  import opened JavaLang
  import Check

  /** The text `toString` puts before the value. */
  const PREFIX: string := "counter value: "

  class Counter {
    const name: string
    var counter: Int64

    constructor (name: string)
      ensures this.name == name && counter == 0
    {
      this.name := name;
      counter := 0;
    }

    /** `of(name)`: rejects a null name; a new counter holds 0. */
    static method Of(name: Option<string>) returns (r: Result<Counter, Error>)
      ensures name.None? ==> r == Failure(NullPointer)
      ensures name.Some? ==> r.Success? && fresh(r.value) && r.value.name == name.value && r.value.counter == 0
    {
      var checked := Check.NotNull(name);
      if checked.Failure? {
        return Failure(checked.error);
      }
      var c := new Counter(checked.value);
      return Success(c);
    }

    /** `increment()`: stores and returns the old value plus one, in `long`
        arithmetic. */
    method Increment() returns (r: Int64)
      modifies this
      ensures counter == Wrap64(old(counter) + 1) && r == counter
      ensures old(counter) < INT64_MAX ==> r == old(counter) + 1
    {
      counter := Wrap64(counter + 1);
      return counter;
    }

    /** `increment(n)`: stores and returns the old value plus `n`, in
        `long` arithmetic. */
    method IncrementBy(n: Int32) returns (r: Int64)
      modifies this
      ensures counter == Wrap64(old(counter) + n) && r == counter
      ensures INT64_MIN <= old(counter) + n <= INT64_MAX ==> r == old(counter) + n
    {
      counter := Wrap64(counter + n);
      return counter;
    }

    /** `get()`: the current value. */
    method Get() returns (r: Int64)
      ensures r == counter
    {
      return counter;
    }

    /** `update(n)`: sets the value to `n` and returns the value it had
        before (`getAndSet`). */
    method Update(n: Int64) returns (r: Int64)
      modifies this
      ensures counter == n && r == old(counter)
    {
      r := counter;
      counter := n;
    }

    /** `reset()`: the value becomes 0. */
    method Reset()
      modifies this
      ensures counter == 0
    {
      counter := 0;
    }

    /** `toString()`: the prefix, then the value in decimal with no leading
        zero; reading the digits back gives the value. */
    method ToString() returns (s: string)
      ensures |s| > |PREFIX| && s[..|PREFIX|] == PREFIX
      ensures ParseDecimal(s[|PREFIX|..]) == Some(counter as int)
      ensures CanonicalDecimal(s[|PREFIX|..])
    {
      s := PREFIX + LongToString(counter);
      assert s[|PREFIX|..] == LongToString(counter);
      LongToStringRoundTrip(counter);
    }
  }
}
