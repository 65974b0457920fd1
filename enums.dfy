/** The three enumerations the entities use. Their declarations are not part
    of this model; the constants are those the client code refers to,
    BADVALUE included. Java prints an enum constant by its name, so each
    type carries the name it contributes to a JSON document. */
module Enums {

  datatype UserType = DEVELOPER | MANAGER | CUSTOMER | TESTER | BADVALUE
  {
    /** The printed form of the constant (Enum.toString). */
    function Name(): string
    {
      match this
      case DEVELOPER => "DEVELOPER"
      case MANAGER => "MANAGER"
      case CUSTOMER => "CUSTOMER"
      case TESTER => "TESTER"
      case BADVALUE => "BADVALUE"
    }
  }

  datatype Status = CREATED | ACCEPTED | FIXED | REOPENED | CLOSED | BADVALUE
  {
    /** The printed form of the constant (Enum.toString). */
    function Name(): string
    {
      match this
      case CREATED => "CREATED"
      case ACCEPTED => "ACCEPTED"
      case FIXED => "FIXED"
      case REOPENED => "REOPENED"
      case CLOSED => "CLOSED"
      case BADVALUE => "BADVALUE"
    }
  }

  datatype Severity = TRIVIAL | MINOR | MAJOR | SHOWSTOPPER | BADVALUE
  {
    /** The printed form of the constant (Enum.toString). */
    function Name(): string
    {
      match this
      case TRIVIAL => "TRIVIAL"
      case MINOR => "MINOR"
      case MAJOR => "MAJOR"
      case SHOWSTOPPER => "SHOWSTOPPER"
      case BADVALUE => "BADVALUE"
    }
  }

  /** Distinct constants print differently, so a printed enum value in a
      JSON document names exactly one constant. */
  lemma NamesInjective()
    ensures forall a: UserType, b: UserType :: a.Name() == b.Name() ==> a == b
    ensures forall a: Status, b: Status :: a.Name() == b.Name() ==> a == b
    ensures forall a: Severity, b: Severity :: a.Name() == b.Name() ==> a == b
  {
  }
}
