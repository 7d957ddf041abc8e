/** The two parameter attribute classes. Each keeps its ordinal number in a
  * field behind a setter that refuses values below 1. */
module Parameters {
  import opened Wrappers
  import Exceptions

  /** C#'s `uint`. */
  type UInt32 = x: int | 0 <= x < 0x1_0000_0000

  /** `Parameter`: ordinal number, name and description. */
  class Parameter {
    var ordinalNumber: UInt32
    var name: string
    var description: string

    ghost predicate Valid()
      reads this
    {
      ordinalNumber >= 1
    }

    constructor ()
      ensures Valid()
      ensures ordinalNumber == 1 && name == "" && description == ""
    {
      ordinalNumber := 1;
      name := "";
      description := "";
    }

    function OrdinalNumber(): (r: UInt32)
      reads this
      requires Valid()
      ensures r >= 1
    {
      ordinalNumber
    }

    /** The guarded setter of `OrdinalNumber`. */
    method SetOrdinalNumber(value: UInt32) returns (thrown: Option<Exceptions.Exception>)
      requires Valid()
      modifies this`ordinalNumber
      ensures Valid()
      ensures value < 1 ==> thrown == Some(Exceptions.ArgumentOutOfRange("OrdinalNumber"))
      ensures value < 1 ==> ordinalNumber == old(ordinalNumber)
      ensures value >= 1 ==> thrown.None? && ordinalNumber == value
    {
      if value < 1 {
        return Some(Exceptions.ArgumentOutOfRange("OrdinalNumber"));
      }
      ordinalNumber := value;
      thrown := None;
    }
  }

  /** `ParameterAttribute`: the ordinal number; name and description are
    * those every attribute has, empty by default. */
  class ParameterAttribute {
    var ordinalNumber: UInt32
    var name: string
    var description: string

    ghost predicate Valid()
      reads this
    {
      ordinalNumber >= 1
    }

    constructor ()
      ensures Valid()
      ensures ordinalNumber == 1 && name == "" && description == ""
    {
      ordinalNumber := 1;
      name := "";
      description := "";
    }

    function OrdinalNumber(): (r: UInt32)
      reads this
      requires Valid()
      ensures r >= 1
    {
      ordinalNumber
    }

    method SetOrdinalNumber(value: UInt32) returns (thrown: Option<Exceptions.Exception>)
      requires Valid()
      modifies this`ordinalNumber
      ensures Valid()
      ensures value < 1 ==> thrown == Some(Exceptions.ArgumentOutOfRange("OrdinalNumber"))
      ensures value < 1 ==> ordinalNumber == old(ordinalNumber)
      ensures value >= 1 ==> thrown.None? && ordinalNumber == value
    {
      if value < 1 {
        return Some(Exceptions.ArgumentOutOfRange("OrdinalNumber"));
      }
      ordinalNumber := value;
      thrown := None;
    }
  }
}
