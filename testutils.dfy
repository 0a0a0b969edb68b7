/** The rendering helpers, the value / null / not-null / containment / and
    comparators, and the accept-or-throw decision of `assertThatImpl` and
    `failImpl`, from include/cxxutils/test/testutils.hpp. Streaming an
    arbitrary `T` (`os << value`) is a parameter `render: T -> string`. */
module TestUtils {
  import opened Wrappers
  import opened Optionals
  import opened Comparators

  // ----- TestIOHelper ------------------------------------------------------

  /** `TestIOHelper<bool>::output`: a `bool` is written as a word. */
  function RenderBool(b: bool): (r: string)
    ensures r == "true" || r == "false"
    ensures r == "true" <==> b
  {
    if b then "true" else "false"
  }

  /** The body of a rendered vector: every element followed by a comma. */
  function ElementsText<T>(render: T -> string, vec: seq<T>): string
  {
    if vec == [] then "" else render(vec[0]) + "," + ElementsText(render, vec[1..])
  }

  /** What `TestIOHelper<std::vector<T>>::output` writes: the elements
      between braces. */
  function VectorText<T>(render: T -> string, vec: seq<T>): (r: string)
    ensures |r| >= 2 && r[0] == '{' && r[|r| - 1] == '}'
    ensures vec == [] ==> r == "{}"
  {
    "{" + ElementsText(render, vec) + "}"
  }

  /** The body of the rendering of `a + b` is that of `a` followed by that of `b`. */
  lemma {:induction false} ElementsTextAppend<T>(render: T -> string, a: seq<T>, b: seq<T>)
    ensures ElementsText(render, a + b) == ElementsText(render, a) + ElementsText(render, b)
  {
    if a == [] {
      assert a + b == b;
    } else {
      assert (a + b)[1..] == a[1..] + b;
      ElementsTextAppend(render, a[1..], b);
    }
  }

  /** `TestIOHelper<std::vector<T>>::output`: writes `{`, then each element
      and a comma, then `}`, to the stream (here, the returned text). */
  method RenderVector<T>(render: T -> string, vec: seq<T>) returns (out: string)
    ensures out == VectorText(render, vec)
  {
    out := "{";
    var i := 0;
    while i < |vec|
      invariant 0 <= i <= |vec|
      invariant out == "{" + ElementsText(render, vec[..i])
    {
      ElementsTextAppend(render, vec[..i], [vec[i]]);
      assert vec[..i + 1] == vec[..i] + [vec[i]];
      out := out + render(vec[i]) + ",";
      i := i + 1;
    }
    assert vec[..i] == vec;
    out := out + "}";
  }

  // ----- decimal text of an int (`os << line`) ------------------------------

  function DigitChar(d: nat): (c: char)
    requires d < 10
    ensures '0' <= c <= '9'
  {
    ('0' as int + d) as char
  }

  /** The decimal digits of `n`, most significant first, no leading zeros. */
  function NatText(n: nat): (r: string)
    ensures |r| >= 1
    ensures forall i :: 0 <= i < |r| ==> '0' <= r[i] <= '9'
    ensures n >= 10 ==> r[0] != '0'
  {
    if n < 10 then [DigitChar(n)] else NatText(n / 10) + [DigitChar(n % 10)]
  }

  /** How `operator<<` writes an `int`: a minus sign, then the digits. */
  function IntText(i: int): (r: string)
    ensures |r| >= 1
    ensures (r[0] == '-') <==> i < 0
  {
    if i < 0 then "-" + NatText(-i) else NatText(i)
  }

  /** The number a string of decimal digits denotes. */
  function DecimalValue(s: string): nat
    requires forall i :: 0 <= i < |s| ==> '0' <= s[i] <= '9'
  {
    if s == [] then 0
    else 10 * DecimalValue(s[..|s| - 1]) + (s[|s| - 1] as int - '0' as int)
  }

  /** The decimal text of `n` reads back as `n`. */
  lemma {:induction false} NatTextRoundTrip(n: nat)
    ensures DecimalValue(NatText(n)) == n
  {
    if n >= 10 {
      var s := NatText(n);
      assert s[..|s| - 1] == NatText(n / 10);
      NatTextRoundTrip(n / 10);
    }
  }

  /** The text of an `int` reads back as that `int`, sign included. */
  lemma {:induction false} IntTextRoundTrip(i: int)
    ensures var r := IntText(i);
      if i < 0 then r[1..] == NatText(-i) && -(DecimalValue(r[1..]) as int) == i
      else DecimalValue(r) == i
  {
    if i < 0 {
      var digits := NatText(-i);
      assert IntText(i) == "-" + digits;
      assert ("-" + digits)[1..] == digits;
      NatTextRoundTrip(-i);
    } else {
      NatTextRoundTrip(i);
    }
  }

  // ----- comparators ---------------------------------------------------------

  /** `is(expected)` (`ValueComparator<T>`): accepts exactly the values equal
      to `expected`; the failure text shows both, one per line. */
  function Is<T(==,!new)>(expected: T, render: T -> string): (c: Comparator<T>)
    ensures forall y :: c.ok(y) <==> y == expected
    ensures forall y :: c.describeFailure(y) == Returns("expected : " + render(expected) + "\n" + "actual   : " + render(y))
    ensures Describable(c)
  {
    Comparator(
      y => expected == y,
      y => Returns("expected : " + render(expected) + "\n" + "actual   : " + render(y)))
  }

  /** `isNull()` (`NullComparator`), on a pointer read as an `Option`:
      accepts exactly the null pointer. */
  function IsNull<T(!new)>(renderPointer: Option<T> -> string): (c: Comparator<Option<T>>)
    ensures forall p :: c.ok(p) <==> p == None
    ensures forall p :: c.describeFailure(p) == Returns("expected null but got " + renderPointer(p))
    ensures Describable(c)
  {
    Comparator(
      (p: Option<T>) => p.None?,
      (p: Option<T>) => Returns("expected null but got " + renderPointer(p)))
  }

  /** `isNotNull()` (`NotNullComparator`): accepts exactly the non-null
      pointers, with a fixed failure text. */
  function IsNotNull<T(!new)>(): (c: Comparator<Option<T>>)
    ensures forall p :: c.ok(p) <==> p.Some?
    ensures forall p :: c.describeFailure(p) == Returns("expected not-null but got null")
    ensures Describable(c)
  {
    Comparator(
      (p: Option<T>) => p.Some?,
      (p: Option<T>) => Returns("expected not-null but got null"))
  }

  /** The null and not-null comparators reject exactly what the other accepts. */
  lemma NullIsComplementOfNotNull<T(!new)>(renderPointer: Option<T> -> string, p: Option<T>)
    ensures IsNull(renderPointer).ok(p) == !IsNotNull<T>().ok(p)
  {
  }

  /** `ContainsComparator<V>::ok`: scans the container and stops at the first
      element equal to `value`. */
  method ContainerHas<V(==,!new)>(value: V, container: seq<V>) returns (found: bool)
    ensures found <==> exists i :: 0 <= i < |container| && container[i] == value
    ensures forall rv, rc :: found == ContainsElement(value, rv, rc).ok(container)
    ensures |container| == 0 ==> !found
  {
    var i := 0;
    while i < |container|
      invariant 0 <= i <= |container|
      invariant forall j :: 0 <= j < i ==> container[j] != value
    {
      if container[i] == value {
        return true;
      }
      i := i + 1;
    }
    return false;
  }

  /** `contains(value)` (`ContainsComparator<V>`): accepts exactly the
      containers with an element equal to `value`. */
  function ContainsElement<V(==,!new)>(value: V, renderValue: V -> string, renderContainer: seq<V> -> string): (c: Comparator<seq<V>>)
    ensures forall s :: c.ok(s) <==> value in s
    ensures forall s :: c.describeFailure(s) == Returns("expected container containing " + renderValue(value) + " but got " + renderContainer(s))
    ensures !c.ok([])
    ensures Describable(c)
  {
    Comparator(
      (s: seq<V>) => value in s,
      (s: seq<V>) => Returns("expected container containing " + renderValue(value) + " but got " + renderContainer(s)))
  }

  /** `and_(c1, c2)` (`AndComparator`): accepts what both accept; the
      failure text is the first comparator's when it rejects, otherwise the
      second's. */
  function And<T(!new)>(c1: Comparator<T>, c2: Comparator<T>): (c: Comparator<T>)
    ensures forall v :: c.ok(v) <==> c1.ok(v) && c2.ok(v)
    ensures forall v :: !c1.ok(v) ==> c.describeFailure(v) == c1.describeFailure(v)
    ensures forall v :: c1.ok(v) ==> c.describeFailure(v) == c2.describeFailure(v)
    ensures Describable(c1) && Describable(c2) ==> Describable(c)
  {
    Comparator(
      v => c1.ok(v) && c2.ok(v),
      v => if !c1.ok(v) then c1.describeFailure(v) else c2.describeFailure(v))
  }

  /** The order and grouping of `and_` do not change what it accepts. */
  lemma AndOkLaws<T(!new)>(c1: Comparator<T>, c2: Comparator<T>, c3: Comparator<T>, v: T)
    ensures And(c1, c2).ok(v) == And(c2, c1).ok(v)
    ensures And(And(c1, c2), c3).ok(v) == And(c1, And(c2, c3)).ok(v)
    ensures And(c1, c1).ok(v) == c1.ok(v)
  {
  }

  /** When `and_` rejects, its text is that of a component that rejects. */
  lemma AndDescribesARejecter<T(!new)>(c1: Comparator<T>, c2: Comparator<T>, v: T)
    requires !And(c1, c2).ok(v)
    ensures (!c1.ok(v) && And(c1, c2).describeFailure(v) == c1.describeFailure(v))
         || (!c2.ok(v) && And(c1, c2).describeFailure(v) == c2.describeFailure(v))
  {
  }

  // ----- assertThatImpl / failImpl -------------------------------------------

  /** The exception an assertion failure throws. */
  datatype AssertionFailedException = AssertionFailedException(mesg: string)

  /** What can escape `assertThatImpl`: its own assertion failure, or a
      `MissingOptionalValue` from a comparator's `describe_failure`. */
  datatype Thrown = AssertionFailed(failure: AssertionFailedException) | Missing(missing: MissingOptionalValue)

  /** The first line of every failure message: `file:line:function assertion failed`. */
  function FailureHeader(file: string, line: int, functionName: string): (r: string)
    ensures file + ":" <= r
  {
    file + ":" + IntText(line) + ":" + functionName + " assertion failed" + "\n"
  }

  /** `assertThatImpl`: returns exactly when the comparator accepts the
      value, and otherwise throws `AssertionFailedException` whose message
      ends with the comparator's failure text. */
  function AssertThatImpl<T>(file: string, line: int, functionName: string, valueExpr: string, testExpr: string, value: T, comparator: Comparator<T>): (r: Outcome<(), Thrown>)
    ensures r.Returns? <==> comparator.ok(value)
    ensures !comparator.ok(value) && comparator.describeFailure(value).Returns? ==>
      r == Throws(AssertionFailed(AssertionFailedException(
        FailureHeader(file, line, functionName)
        + "failed   : assertThat(" + valueExpr + "," + testExpr + ") failed: " + "\n"
        + comparator.describeFailure(value).result)))
    ensures !comparator.ok(value) && comparator.describeFailure(value).Throws? ==>
      r == Throws(Missing(comparator.describeFailure(value).error))
  {
    if comparator.ok(value) then Returns(())
    else
      match comparator.describeFailure(value)
      case Returns(d) =>
        Throws(AssertionFailed(AssertionFailedException(
          FailureHeader(file, line, functionName)
          + "failed   : assertThat(" + valueExpr + "," + testExpr + ") failed: " + "\n"
          + d)))
      case Throws(m) => Throws(Missing(m))
  }

  /** `failImpl`: always throws, with the given message on the second line. */
  function FailImpl(file: string, line: int, functionName: string, message: string): (r: Outcome<(), AssertionFailedException>)
    ensures r.Throws?
    ensures r.error.mesg == FailureHeader(file, line, functionName) + "failed   : " + message + "\n"
  {
    Throws(AssertionFailedException(FailureHeader(file, line, functionName) + "failed   : " + message + "\n"))
  }

  /** With a comparator whose failure text never throws, `assertThatImpl`
      either returns or throws its own `AssertionFailedException`, never
      anything else, and the message ends with the failure text. */
  lemma AssertThatThrowsOnlyAssertionFailures<T(!new)>(file: string, line: int, functionName: string, valueExpr: string, testExpr: string, value: T, comparator: Comparator<T>)
    requires Describable(comparator)
    ensures var r := AssertThatImpl(file, line, functionName, valueExpr, testExpr, value, comparator);
      r.Returns? || r.error.AssertionFailed?
    ensures var r := AssertThatImpl(file, line, functionName, valueExpr, testExpr, value, comparator);
      r.Throws? ==>
        var m := r.error.failure.mesg;
        var d := comparator.describeFailure(value).result;
        |d| <= |m| && m[|m| - |d|..] == d && file + ":" <= m
  {
    var r := AssertThatImpl(file, line, functionName, valueExpr, testExpr, value, comparator);
    if r.Throws? {
      var d := comparator.describeFailure(value).result;
      var prefix := FailureHeader(file, line, functionName)
        + "failed   : assertThat(" + valueExpr + "," + testExpr + ") failed: " + "\n";
      assert r.error.failure.mesg == prefix + d;
    }
  }
}
