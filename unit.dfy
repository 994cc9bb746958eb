/**
 * An organizational unit: a name and a number stored as given, with setters
 * that check the type of what is assigned.
 */
module Units {
  import opened Wrappers
  import opened Values

  /** `str(unit)` for a unit with the given fields (line 27). */
  function Describe(name: Scalar, number: Scalar): string {
    "Unit(Name: " + Render(name) + ", Number: " + Render(number) + ")"
  }

  /** Two units with the same name and different integer numbers are told apart by `str()`. */
  lemma DescribeDistinguishesNumbers(name: Scalar, a: int, b: int)
    requires a != b
    ensures Describe(name, Int(a)) != Describe(name, Int(b))
  {
    var prefix := "Unit(Name: " + Render(name) + ", Number: ";
    if Describe(name, Int(a)) == Describe(name, Int(b)) {
      var da, db := IntToDecimal(a), IntToDecimal(b);
      assert Describe(name, Int(a)) == prefix + da + ")";
      assert Describe(name, Int(b)) == prefix + db + ")";
      assert |da| == |db|;
      assert da == (prefix + da + ")")[|prefix|..|prefix| + |da|];
      assert db == (prefix + db + ")")[|prefix|..|prefix| + |db|];
      DecimalInjective(a, b);
    }
  }

  class Unit {
    var storedName: Scalar     // `_name`
    var storedNumber: Scalar   // `_number`

    /** `Unit(unit_name, unit_number)`: no validation at all. */
    constructor (unitName: Scalar, unitNumber: Scalar)
      ensures storedName == unitName && storedNumber == unitNumber
    {
      storedName := unitName;
      storedNumber := unitNumber;
    }

    /** The `name` property. */
    function Name(): (n: Scalar)
      reads this
      ensures n == storedName
    {
      storedName
    }

    /** The `number` property. */
    function Number(): (n: Scalar)
      reads this
      ensures n == storedNumber
    {
      storedNumber
    }

    /** Assigning `name`: rejects a non-string, otherwise replaces `_name` only. */
    method SetName(value: Value) returns (outcome: Outcome<PyError>)
      modifies this
      ensures outcome == if value.Str? then Pass else Fail(ValueError("Unit name must be a string"))
      ensures storedName == if value.Str? then value else old(storedName)
      ensures storedNumber == old(storedNumber)
    {
      if !value.Str? {
        return Fail(ValueError("Unit name must be a string"));
      }
      storedName := value;
      return Pass;
    }

    /** Assigning `number`: rejects a non-int (a bool passes), otherwise replaces `_number` only. */
    method SetNumber(value: Value) returns (outcome: Outcome<PyError>)
      modifies this
      ensures outcome == if IsInstanceInt(value) then Pass else Fail(ValueError("Unit number must be an integer"))
      ensures storedNumber == if IsInstanceInt(value) then value else old(storedNumber)
      ensures storedName == old(storedName)
    {
      if !IsInstanceInt(value) {
        return Fail(ValueError("Unit number must be an integer"));
      }
      storedNumber := value;
      return Pass;
    }

    /** `str(unit)`. */
    function ToString(): (s: string)
      reads this
      ensures s == Describe(Name(), Number())
    {
      Describe(storedName, storedNumber)
    }
  }

  /** The getters give back exactly what the constructor was given, and `str()` shows it. */
  method ConstructAndRead(unitName: Scalar, unitNumber: Scalar) returns (name: Scalar, number: Scalar, rendered: string)
    ensures name == unitName && number == unitNumber
    ensures rendered == "Unit(Name: " + Render(unitName) + ", Number: " + Render(unitNumber) + ")"
  {
    var u := new Unit(unitName, unitNumber);
    name := u.Name();
    number := u.Number();
    rendered := u.ToString();
  }

  /** Renaming then renumbering a unit: each assignment takes effect exactly when its type check passes. */
  method Reassign(unitName: Scalar, unitNumber: Scalar, newName: Value, newNumber: Value)
    returns (nameOutcome: Outcome<PyError>, numberOutcome: Outcome<PyError>, name: Scalar, number: Scalar)
    ensures nameOutcome.Pass? <==> newName.Str?
    ensures numberOutcome.Pass? <==> IsInstanceInt(newNumber)
    ensures name == if newName.Str? then newName else unitName
    ensures number == if IsInstanceInt(newNumber) then newNumber else unitNumber
  {
    var u := new Unit(unitName, unitNumber);
    nameOutcome := u.SetName(newName);
    numberOutcome := u.SetNumber(newNumber);
    name := u.Name();
    number := u.Number();
  }
}
