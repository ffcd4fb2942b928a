/** The argument guards of `com.mindplex.commons.base.Check`. A Java
    `String` argument that may be null is an `Option<string>`; a guard that
    raises returns `Failure`. */
module Check {
  import opened Wrappers
  import opened JavaLang

  /** `notEmpty(suspect, message)`: the string itself when it is non-null
      and has at least one character, otherwise an IllegalArgumentException
      carrying `message`. */
  function NotEmptyWithMessage(suspect: Option<string>, message: Option<string>): (r: Result<string, Error>)
    ensures r.Success? <==> suspect.Some? && |suspect.value| > 0
    ensures r.Success? ==> r.value == suspect.value
    ensures r.Failure? ==> r.error == IllegalArgument(message)
  {
    if suspect.None? || |suspect.value| <= 0 then Failure(IllegalArgument(message))
    else Success(suspect.value)
  }

  /** `notEmpty(suspect)`: the same guard, raising without a message. */
  function NotEmpty(suspect: Option<string>): (r: Result<string, Error>)
    ensures r.Success? <==> suspect.Some? && |suspect.value| > 0
    ensures r.Success? ==> r.value == suspect.value
    ensures r.Failure? ==> r.error == IllegalArgument(None)
  {
    NotEmptyWithMessage(suspect, None)
  }

  /** `isEmpty(suspect)`: null or of length 0. A string of blanks is not empty. */
  predicate IsEmpty(suspect: Option<string>)
  {
    !(suspect.Some? && |suspect.value| > 0)
  }

  /** `isEmpty` is true exactly for null and for `""`. */
  lemma IsEmptyExactly(suspect: Option<string>)
    ensures IsEmpty(suspect) <==> suspect == None || suspect == Some("")
  {
    if suspect.Some? && |suspect.value| == 0 {
      assert suspect.value == "";
    }
  }

  /** The two guards agree: `notEmpty` passes exactly the strings `isEmpty`
      rejects, whatever the message. */
  lemma NotEmptyIffNotIsEmpty(suspect: Option<string>, message: Option<string>)
    ensures NotEmptyWithMessage(suspect, message).Success? <==> !IsEmpty(suspect)
    ensures NotEmpty(suspect).Success? <==> !IsEmpty(suspect)
  {
  }

  /** `notNull(suspect)`: the reference itself, or a NullPointerException. */
  function NotNull<T>(suspect: Option<T>): (r: Result<T, Error>)
    ensures suspect.Some? ==> r == Success(suspect.value)
    ensures suspect.None? ==> r == Failure(NullPointer)
  {
    match suspect
    case None => Failure(NullPointer)
    case Some(v) => Success(v)
  }

  /** True when `s` holds a character that `isWhitespace` rejects; the
      source's `java.lang.Character.isWhitespace` is the parameter. */
  ghost predicate HasNonWhitespace(s: string, isWhitespace: char -> bool)
  {
    exists i :: 0 <= i < |s| && !isWhitespace(s[i])
  }

  /** The scan at the heart of `hasText`: returns on the first character
      that is not whitespace. */
  method ScanForText(s: string, isWhitespace: char -> bool) returns (found: bool)
    ensures found <==> HasNonWhitespace(s, isWhitespace)
  {
    var i := 0;
    while i < |s|
      invariant 0 <= i <= |s|
      invariant forall j :: 0 <= j < i ==> isWhitespace(s[j])
    {
      if !isWhitespace(s[i]) {
        return true;
      }
      i := i + 1;
    }
    return false;
  }

  /** `hasText(suspect)` as written. The guard returns false for every
      string that is NOT empty, so the scan only ever sees `""`, and a null
      argument reaches `suspect.length()` and raises. */
  method HasText(suspect: Option<string>, isWhitespace: char -> bool) returns (r: Result<bool, Error>)
    ensures suspect.None? ==> r == Failure(NullPointer)
    ensures suspect.Some? ==> r == Success(false)
  {
    if !IsEmpty(suspect) {
      return Success(false);
    }
    if suspect.None? {
      return Failure(NullPointer);
    }
    var found := ScanForText(suspect.value, isWhitespace);
    return Success(found);
  }

  /** What the documentation of `hasText` promises: non-null, non-empty and
      not whitespace only. */
  ghost predicate HasTextDocumented(suspect: Option<string>, isWhitespace: char -> bool)
  {
    suspect.Some? && |suspect.value| > 0 && HasNonWhitespace(suspect.value, isWhitespace)
  }

  /** A string the documentation says has text, for which `HasText`
      returns false: any character that is not whitespace, on its own. */
  lemma HasTextDisagrees(c: char, isWhitespace: char -> bool)
    requires !isWhitespace(c)
    ensures HasTextDocumented(Some([c]), isWhitespace)
  {
    assert [c][0] == c;
  }

  /** `hasText` with the guard the documentation implies: empty strings
      (and null) have no text, the rest are scanned. */
  method HasTextIntended(suspect: Option<string>, isWhitespace: char -> bool) returns (b: bool)
    ensures b <==> HasTextDocumented(suspect, isWhitespace)
  {
    if IsEmpty(suspect) {
      return false;
    }
    b := ScanForText(suspect.value, isWhitespace);
  }

  /** `or(message, arguments...)`: true as soon as one argument is true,
      otherwise an IllegalArgumentException carrying `message`, also when
      there are no arguments. */
  method OrWithMessage(message: Option<string>, arguments: seq<bool>) returns (r: Result<bool, Error>)
    ensures (exists i :: 0 <= i < |arguments| && arguments[i]) ==> r == Success(true)
    ensures (forall i :: 0 <= i < |arguments| ==> !arguments[i]) ==> r == Failure(IllegalArgument(message))
  {
    var i := 0;
    while i < |arguments|
      invariant 0 <= i <= |arguments|
      invariant forall j :: 0 <= j < i ==> !arguments[j]
    {
      if arguments[i] {
        return Success(true);
      }
      i := i + 1;
    }
    return Failure(IllegalArgument(message));
  }

  /** `or(arguments...)`: the same, raising without a message. */
  method Or(arguments: seq<bool>) returns (r: Result<bool, Error>)
    ensures (exists i :: 0 <= i < |arguments| && arguments[i]) ==> r == Success(true)
    ensures (forall i :: 0 <= i < |arguments| ==> !arguments[i]) ==> r == Failure(IllegalArgument(None))
  {
    r := OrWithMessage(None, arguments);
  }

  /** `and(message, arguments...)`: an IllegalArgumentException carrying
      `message` at the first false argument, otherwise true, also when there
      are no arguments. */
  method AndWithMessage(message: Option<string>, arguments: seq<bool>) returns (r: Result<bool, Error>)
    ensures (forall i :: 0 <= i < |arguments| ==> arguments[i]) ==> r == Success(true)
    ensures (exists i :: 0 <= i < |arguments| && !arguments[i]) ==> r == Failure(IllegalArgument(message))
  {
    var i := 0;
    while i < |arguments|
      invariant 0 <= i <= |arguments|
      invariant forall j :: 0 <= j < i ==> arguments[j]
    {
      if !arguments[i] {
        return Failure(IllegalArgument(message));
      }
      i := i + 1;
    }
    return Success(true);
  }

  /** `and(arguments...)`: the same, raising without a message. */
  method And(arguments: seq<bool>) returns (r: Result<bool, Error>)
    ensures (forall i :: 0 <= i < |arguments| ==> arguments[i]) ==> r == Success(true)
    ensures (exists i :: 0 <= i < |arguments| && !arguments[i]) ==> r == Failure(IllegalArgument(None))
  {
    r := AndWithMessage(None, arguments);
  }
}
