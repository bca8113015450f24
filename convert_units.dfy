/** UnitConverter of blueshark/domain/physics/convert_units.py: lengths
    and areas given in a supported unit, expressed in meters. */
module ConvertUnits {
  import opened Wrappers

  /** The members of the Units enum (blueshark/domain/constants.py). */
  datatype Unit = Micrometers | Centimeters | Millimeter | Meter | Inch | Mils

  /** The enum member names as declared in blueshark/domain/constants.py;
      the first is spelled MIRCOMETERS there. */
  const DeclaredUnitNames: seq<string> :=
    ["MIRCOMETERS", "CENTIMETERS", "MILLIMETER", "METER", "INCH", "MILS"]

  /** The same names with MICROMETERS spelled as everywhere else. */
  const IntendedUnitNames: seq<string> :=
    ["MICROMETERS", "CENTIMETERS", "MILLIMETER", "METER", "INCH", "MILS"]

  /** The member names the conversion table is keyed by, in table order. */
  const TableKeyNames: seq<string> :=
    ["MICROMETERS", "MILLIMETER", "CENTIMETERS", "METER", "INCH", "MILS"]

  /** Building the table: every key `Units.NAME` is an attribute lookup on
      the enum class, which raises AttributeError for a name the enum does
      not declare. The result is the list of resolved keys, as positions in
      the enum's declaration order. */
  function ResolveKeys(declared: seq<string>, keys: seq<string>): (r: Result<seq<nat>>)
    ensures r.Ok? <==> forall k :: k in keys ==> k in declared
    ensures r.Err? ==> r.error == AttributeError
    ensures r.Ok? ==> |r.value| == |keys|
    ensures r.Ok? ==> forall i :: 0 <= i < |keys| ==> r.value[i] < |declared| && declared[r.value[i]] == keys[i]
  {
    if |keys| == 0 then Ok([])
    else if keys[0] !in declared then Err(AttributeError)
    else
      var rest := ResolveKeys(declared, keys[1..]);
      assert forall k :: k in keys[1..] ==> k in keys;
      if rest.Err? then
        assert keys[1..] == keys[1..] && exists k :: k in keys[1..] && k !in declared;
        rest
      else
        var r := [IndexOf(declared, keys[0])] + rest.value;
        assert forall i :: 1 <= i < |keys| ==> r[i] == rest.value[i - 1] && keys[i] == keys[1..][i - 1];
        Ok(r)
  }

  /** The position of the first occurrence of x in s. */
  function IndexOf(s: seq<string>, x: string): (i: nat)
    requires x in s
    ensures i < |s| && s[i] == x
  {
    if s[0] == x then 0 else 1 + IndexOf(s[1..], x)
  }

  /** As written, the table refers to Units.MICROMETERS, which the enum
      does not declare, so the class body of UnitConverter raises
      AttributeError. */
  lemma TableFailsAsWritten()
    ensures ResolveKeys(DeclaredUnitNames, TableKeyNames) == Err(AttributeError)
  {
    assert "MICROMETERS" in TableKeyNames;
    assert "MICROMETERS" != DeclaredUnitNames[0];
    assert "MICROMETERS" !in DeclaredUnitNames;
  }

  /** One step of ResolveKeys: a declared first key is resolved to its
      position in front of the rest. */
  lemma ResolveKeysStep(declared: seq<string>, keys: seq<string>)
    requires |keys| > 0 && keys[0] in declared && ResolveKeys(declared, keys[1..]).Ok?
    ensures ResolveKeys(declared, keys) == Ok([IndexOf(declared, keys[0])] + ResolveKeys(declared, keys[1..]).value)
  {
  }

  /** With the intended spelling every key resolves, and every member of
      the enum is a key, so the table has a factor for every member. */
  lemma TableResolvesAsIntended()
    ensures ResolveKeys(IntendedUnitNames, TableKeyNames).Ok?
    ensures forall name :: name in IntendedUnitNames ==> name in TableKeyNames
  {
    KeysDeclared();
    NamesAreKeys();
  }

  lemma KeysDeclared()
    ensures forall k :: k in TableKeyNames ==> k in IntendedUnitNames
  {
    var d, t := IntendedUnitNames, TableKeyNames;
    forall i | 0 <= i < |t| ensures t[i] in d {
      var j := [0, 2, 1, 3, 4, 5][i];
      assert t[i] == d[j];
    }
  }

  lemma NamesAreKeys()
    ensures forall name :: name in IntendedUnitNames ==> name in TableKeyNames
  {
    var d, t := IntendedUnitNames, TableKeyNames;
    forall i | 0 <= i < |d| ensures d[i] in t {
      var j := [0, 2, 1, 3, 4, 5][i];
      assert d[i] == t[j];
    }
  }

  /** _to_meters: the conversion factor of each unit. */
  function Factor(u: Unit): (f: real)
    ensures f > 0.0
  {
    match u
    case Micrometers => 0.000001
    case Millimeter => 0.001
    case Centimeters => 0.01
    case Meter => 1.0
    case Inch => 0.0254
    case Mils => 0.0000254
  }

  /** to_meters. `unit` is None for anything the table has no entry for
      (None, a string, a member of another enum). */
  function ToMeters(value: real, unit: Option<Unit>): (r: Result<real>)
    ensures unit.None? <==> r == Err(ValueError)
    ensures unit.Some? ==> r.Ok? && r.value == value * Factor(unit.value)
  {
    match unit
    case None => Err(ValueError)
    case Some(u) => Ok(value * Factor(u))
  }

  /** to_square_meters */
  function ToSquareMeters(value: real, unit: Option<Unit>): (r: Result<real>)
    ensures unit.None? <==> r == Err(ValueError)
  {
    match unit
    case None => Err(ValueError)
    case Some(u) => Ok(value * (Factor(u) * Factor(u)))
  }

  /** Converting an area is converting a length twice. */
  lemma SquareIsLengthTwice(value: real, unit: Option<Unit>)
    ensures ToSquareMeters(value, unit).Ok?
        ==> ToSquareMeters(value, unit).value == ToMeters(ToMeters(value, unit).value, unit).value
  {
  }

  /** Meters are left unchanged. */
  lemma MeterIsIdentity(value: real)
    ensures ToMeters(value, Some(Meter)) == Ok(value)
    ensures ToSquareMeters(value, Some(Meter)) == Ok(value)
  {
  }

  /** Converting preserves sums and the order of values. */
  lemma ToMetersLinear(a: real, b: real, u: Unit)
    ensures ToMeters(a + b, Some(u)).value == ToMeters(a, Some(u)).value + ToMeters(b, Some(u)).value
    ensures a < b ==> ToMeters(a, Some(u)).value < ToMeters(b, Some(u)).value
  {
    var f := Factor(u);
    if a < b {
      assert a * f < b * f;
    }
  }

  /** A mil is a thousandth of an inch. */
  lemma MilIsThousandthInch(value: real)
    ensures ToMeters(1000.0 * value, Some(Mils)) == ToMeters(value, Some(Inch))
  {
    assert Factor(Mils) == 0.0000254 && Factor(Inch) == 0.0254;
    assert ToMeters(1000.0 * value, Some(Mils)).value == (1000.0 * value) * 0.0000254;
    assert ToMeters(value, Some(Inch)).value == value * 0.0254;
    calc {
      (1000.0 * value) * 0.0000254;
    ==
      value * (1000.0 * 0.0000254);
    ==
      value * 0.0254;
    }
  }

  /** 100000 micrometers are 0.1 m and 1000 cm are 10 m; 1000 square
      micrometers are 1e-9 square meters and 1000 square centimeters are
      0.1 square meters. */
  lemma Examples()
    ensures ToMeters(100000.0, Some(Micrometers)) == Ok(0.1)
    ensures ToMeters(1000.0, Some(Centimeters)) == Ok(10.0)
    ensures ToSquareMeters(1000.0, Some(Micrometers)) == Ok(0.000000001)
    ensures ToSquareMeters(1000.0, Some(Centimeters)) == Ok(0.1)
  {
  }
}
