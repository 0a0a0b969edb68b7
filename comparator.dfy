/** The comparator concept shared by the headers under include/cxxutils/test. The C++
    code relies on duck typing: a comparator is any object with `ok(v)` and
    `describe_failure(v)`. Here it is a record of those two functions. */
module Comparators {
  import opened Wrappers
  import opened Optionals

  /** `ok` accepts or rejects a value; `describeFailure` is the text that
      `describe_failure` builds, or the `MissingOptionalValue` it lets escape. */
  datatype Comparator<-T> = Comparator(ok: T -> bool, describeFailure: T -> Outcome<string, MissingOptionalValue>)

  /** `describe_failure` returns normally on every value `ok` rejects, which
      are the only values it is asked about. */
  ghost predicate Describable<T(!new)>(c: Comparator<T>) {
    forall x :: !c.ok(x) ==> c.describeFailure(x).Returns?
  }
}
