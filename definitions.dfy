/** The enums of blueshark/domain/definitions.py that the core uses, and
    the Python values that geometry dictionaries, keyword parameters and
    subject dictionaries hold. */
module Definitions {
  import opened Wrappers

  /** ShapeType: the universal shape kinds. */
  datatype ShapeType = Polygon | Rectangle | Circle | AnnulusSector | AnnulusCircle | Hybrid

  /** Connectors: edge kinds of a hybrid shape (a string enum: "line", "arc"). */
  datatype Connector = Line | Arc

  /** CurrentPolarity */
  datatype Polarity = Forward | Reverse

  /** A Python value as the source receives it from callers. Dictionaries
      keep insertion order, as Python's do. */
  datatype Value =
    | VNone
    | VBool(b: bool)
    | VInt(i: int)
    | VFloat(r: real)
    | VStr(s: string)
    | VTuple(items: seq<Value>)
    | VList(items: seq<Value>)
    | VDict(entries: seq<(string, Value)>)
    | VShape(kind: ShapeType)
    | VConnector(c: Connector)

  /** isinstance(v, (int, float)); bool is a subclass of int. */
  predicate IsNumber(v: Value) {
    v.VBool? || v.VInt? || v.VFloat?
  }

  /** The numeric value of a number. */
  function AsReal(v: Value): real
    requires IsNumber(v)
  {
    match v
    case VBool(b) => if b then 1.0 else 0.0
    case VInt(i) => i as real
    case VFloat(r) => r
  }

  /** `key in d` for a dictionary given as its entries. */
  predicate HasKey(entries: seq<(string, Value)>, key: string) {
    exists i :: 0 <= i < |entries| && entries[i].0 == key
  }

  /** `d.get(key)`: the value stored under key, or None. */
  function Get(entries: seq<(string, Value)>, key: string): (v: Value)
    ensures !HasKey(entries, key) ==> v == VNone
    ensures HasKey(entries, key) ==> exists i :: 0 <= i < |entries| && entries[i] == (key, v)
  {
    if |entries| == 0 then VNone
    else if entries[0].0 == key then entries[0].1
    else
      assert HasKey(entries, key) ==> HasKey(entries[1..], key) by {
        if HasKey(entries, key) {
          var i :| 0 <= i < |entries| && entries[i].0 == key;
          assert entries[1..][i - 1].0 == key;
        }
      }
      var v := Get(entries[1..], key);
      assert HasKey(entries, key) ==> entries[1 + (var i :| 0 <= i < |entries[1..]| && entries[1..][i] == (key, v); i)] == (key, v);
      v
  }

  /** `not v` in Python: the falsy values. */
  predicate Falsy(v: Value) {
    match v
    case VNone => true
    case VBool(b) => !b
    case VInt(i) => i == 0
    case VFloat(r) => r == 0.0
    case VStr(s) => |s| == 0
    case VTuple(xs) => |xs| == 0
    case VList(xs) => |xs| == 0
    case VDict(es) => |es| == 0
    case VShape(_) => false
    case VConnector(_) => false
  }

  /** isinstance(v, (list, tuple)) */
  predicate IsSequence(v: Value) {
    v.VTuple? || v.VList?
  }

  /** A point given as a 2-element tuple or list of numbers, as it can be
      unpacked by `x, y = p` and used in arithmetic. */
  predicate IsNumericPair(v: Value) {
    IsSequence(v) && |v.items| == 2 && IsNumber(v.items[0]) && IsNumber(v.items[1])
  }

  type Point = (real, real)

  function AsPoint(v: Value): Point
    requires IsNumericPair(v)
  {
    (AsReal(v.items[0]), AsReal(v.items[1]))
  }

  /** The point as the source builds it: a tuple of two floats. */
  function PointValue(p: Point): Value {
    VTuple([VFloat(p.0), VFloat(p.1)])
  }

  lemma PointValueRoundTrip(p: Point)
    ensures IsNumericPair(PointValue(p)) && AsPoint(PointValue(p)) == p
  {
  }
}
