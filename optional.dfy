/** `optional<T>` from include/cxxutils/optional.hpp: an owning container of
    zero or one `T`, kept in a single `unique_ptr` field. */
module Optionals {
  import opened Wrappers

  /** The exception `getValue` throws on an empty optional. */
  datatype MissingOptionalValue = MissingOptionalValue

  /** The text `MissingOptionalValue` passes to `std::runtime_error`. */
  const MissingOptionalValueWhat: string := "Optional value is not set"

  class Optional<T> {
    /** The `unique_ptr<T>`: `None` is the null pointer. */
    var value: Option<T>

    /** `optional()`: holds nothing. */
    constructor Empty()
      ensures value == None
    {
      value := None;
    }

    /** `optional(const T&)` and `optional(T&&)`: holds `v`. */
    constructor Of(v: T)
      ensures value == Some(v)
    {
      value := Some(v);
    }

    /** Copy constructor: an empty source gives an empty copy, a populated
        one a fresh copy of its value; the source is left as it was. */
    constructor Copy(other: Optional<T>)
      ensures value == other.value
    {
      value := other.value;
    }

    /** Move constructor: takes over the source's pointer, which becomes null. */
    constructor Move(other: Optional<T>)
      modifies other
      ensures value == old(other.value)
      ensures other.value == None
    {
      value := other.value;
      new;
      other.value := None;
    }

    /** Copy assignment: a populated source is copied in, an empty source
        resets the target to empty; the source is left as it was. */
    method CopyAssign(other: Optional<T>)
      modifies this
      ensures value == old(other.value)
      ensures other.value == old(other.value)
    {
      match other.value
      case Some(v) => value := Some(v);
      case None => value := None;
    }

    /** Move assignment `value = std::move(v.value)`: the source's pointer is
        released and then installed in the target, so the target gets the
        source's old state and a distinct source is left empty (a self-move
        keeps the value). */
    method MoveAssign(other: Optional<T>)
      modifies this, other
      ensures value == old(other.value)
      ensures other != this ==> other.value == None
    {
      var released := other.value;
      other.value := None;
      value := released;
    }

    /** `hasValue`: true exactly when `getValue` does not throw. */
    function HasValue(): (b: bool)
      reads this
      ensures b <==> GetValue().Returns?
    {
      value.Some?
    }

    /** `getValue`: the held value, or `MissingOptionalValue` when empty. */
    function GetValue(): (r: Outcome<T, MissingOptionalValue>)
      reads this
      ensures r.Returns? <==> value.Some?
      ensures r.Returns? ==> value == Some(r.result)
      ensures r.Throws? ==> r.error == MissingOptionalValue
    {
      match value
      case Some(v) => Returns(v)
      case None => Throws(MissingOptionalValue)
    }

    /** `takeValue`: hands the held value to the caller and leaves this
        optional empty; calling it on an empty optional is undefined. */
    method TakeValue() returns (v: T)
      requires HasValue()
      modifies this
      ensures old(value) == Some(v)
      ensures value == None
    {
      v := value.value;
      value := None;
    }
  }

  /** A default-constructed optional has no value and `getValue` throws. */
  method EmptyHasNoValue<T>() returns (has: bool, got: Outcome<T, MissingOptionalValue>)
    ensures !has
    ensures got == Throws(MissingOptionalValue)
  {
    var o := new Optional<T>.Empty();
    has := o.HasValue();
    got := o.GetValue();
  }

  /** An optional built from `v` has a value and `getValue` returns `v`. */
  method OfHoldsValue<T>(v: T) returns (has: bool, got: Outcome<T, MissingOptionalValue>)
    ensures has
    ensures got == Returns(v)
  {
    var o := new Optional.Of(v);
    has := o.HasValue();
    got := o.GetValue();
  }

  /** A copy is independent of its source: draining the source afterwards
      leaves the copy holding the value it was made with. */
  method CopyIsIndependent<T>(v: T) returns (copy: Option<T>, source: Option<T>, taken: T)
    ensures copy == Some(v)
    ensures source == None
    ensures taken == v
  {
    var o := new Optional.Of(v);
    var c := new Optional.Copy(o);
    taken := o.TakeValue();
    copy, source := c.value, o.value;
  }

  /** Moving (by construction or by assignment) transfers the value and
      leaves exactly one owner of it. */
  method MoveLeavesOneOwner<T>(v: T, w: T) returns (target: Option<T>, source: Option<T>, assignee: Option<T>, moved: Option<T>)
    ensures target == Some(v) && source == None
    ensures assignee == Some(v) && moved == None
  {
    var o := new Optional.Of(v);
    var m := new Optional.Move(o);
    target, source := m.value, o.value;
    var a := new Optional.Of(w);
    a.MoveAssign(m);
    assignee, moved := a.value, m.value;
  }

  /** Copy assignment from an empty source empties a populated target. */
  method CopyAssignFromEmpty<T>(w: T) returns (target: Option<T>)
    ensures target == None
  {
    var t := new Optional.Of(w);
    var e := new Optional<T>.Empty();
    t.CopyAssign(e);
    target := t.value;
  }
}
