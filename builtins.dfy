/** The Python built-in operations the geometry code performs on the values
    it is handed: len(), iteration, subscripting with an integer, unpacking
    into two names, and the hashing and equality a `set` uses. */
module Builtins {
  import opened Wrappers
  import opened Definitions

  /** The string a member of the str enum Connectors stands for. */
  function ConnectorText(c: Connector): string {
    match c
    case Line => "line"
    case Arc => "arc"
  }

  /** isinstance(v, str): a Connectors member is a str. */
  predicate IsText(v: Value) {
    v.VStr? || v.VConnector?
  }

  /** The characters of a str value. */
  function Text(v: Value): (r: string)
    requires IsText(v)
    ensures v.VStr? ==> r == v.s
    ensures v.VConnector? ==> r == ConnectorText(v.c)
  {
    if v.VStr? then v.s else ConnectorText(v.c)
  }

  /** The characters of a string, each a string of length one. */
  function Chars(s: string): (r: seq<Value>)
    ensures |r| == |s| && forall i :: 0 <= i < |s| ==> r[i] == VStr([s[i]])
  {
    seq(|s|, i requires 0 <= i < |s| => VStr([s[i]]))
  }

  /** `for x in v`: a list or tuple yields its items, a string (a
      Connectors member is one) its characters, a dictionary its keys;
      None, numbers and ShapeType members are not iterable. */
  function Iterate(v: Value): (r: Result<seq<Value>>)
    ensures IsSequence(v) ==> r == Ok(v.items)
    ensures r.Ok? <==> IsSequence(v) || v.VStr? || v.VDict? || v.VConnector?
    ensures r.Ok? && !IsSequence(v) ==> forall i :: 0 <= i < |r.value| ==> r.value[i].VStr?
    ensures r.Err? ==> r.error == TypeError
  {
    match v
    case VList(xs) => Ok(xs)
    case VTuple(xs) => Ok(xs)
    case VDict(es) => Ok(seq(|es|, i requires 0 <= i < |es| => VStr(es[i].0)))
    case VStr(s) => Ok(Chars(s))
    case VConnector(c) => Ok(Chars(ConnectorText(c)))
    case _ => Err(TypeError)
  }

  /** len(v): the number of values iterating v yields. */
  function Len(v: Value): (r: Result<nat>)
    ensures r.Ok? <==> Iterate(v).Ok?
    ensures r.Ok? ==> r.value == |Iterate(v).value|
    ensures r.Err? ==> r.error == TypeError
  {
    var xs :- Iterate(v);
    Ok(|xs|)
  }

  /** `v[i]` for an index i >= 0. A list, tuple or string gives its i-th
      item or raises IndexError; the model's dictionaries are keyed by
      strings, so an integer key raises KeyError; anything else is not
      subscriptable (TypeError). */
  function Subscript(v: Value, i: nat): (r: Result<Value>)
    ensures v.VDict? ==> r == Err(KeyError)
    ensures !v.VDict? && Iterate(v).Ok? ==>
      (r.Ok? <==> i < |Iterate(v).value|) && (r.Ok? ==> r.value == Iterate(v).value[i])
    ensures !v.VDict? && Iterate(v).Ok? && r.Err? ==> r.error == IndexError
    ensures Iterate(v).Err? ==> r == Err(TypeError)
  {
    if v.VDict? then Err(KeyError)
    else
      var xs :- Iterate(v);
      if i < |xs| then Ok(xs[i]) else Err(IndexError)
  }

  /** `a, b = v`: v must be iterable (TypeError) and yield exactly two
      values (ValueError). */
  function Unpack(v: Value): (r: Result<(Value, Value)>)
    ensures r.Ok? <==> Iterate(v).Ok? && |Iterate(v).value| == 2
    ensures r.Ok? ==> r.value == (Iterate(v).value[0], Iterate(v).value[1])
    ensures r.Err? ==> r.error == if Iterate(v).Err? then TypeError else ValueError
  {
    var xs :- Iterate(v);
    if |xs| == 2 then Ok((xs[0], xs[1])) else Err(ValueError)
  }

  /** A value unpacks into two numbers exactly when it is a list or tuple
      of two numbers: a two-character string or a dictionary with two keys
      unpacks, but into strings. */
  lemma NumericUnpack(v: Value)
    ensures (Unpack(v).Ok? && IsNumber(Unpack(v).value.0) && IsNumber(Unpack(v).value.1)) <==> IsNumericPair(v)
    ensures IsNumericPair(v) ==> Unpack(v) == Ok((v.items[0], v.items[1]))
  {
    if Unpack(v).Ok? && !IsSequence(v) {
      assert Iterate(v).value[0].VStr?;
    }
  }

  /** hash(v) succeeds: lists and dictionaries are unhashable, and so is a
      tuple holding one. */
  predicate Hashable(v: Value) {
    match v
    case VList(_) => false
    case VDict(_) => false
    case VTuple(xs) => forall i :: 0 <= i < |xs| ==> Hashable(xs[i])
    case _ => true
  }

  /** The value a set compares v by: True, 1 and 1.0 are one element, and
      tuples compare item by item. */
  function Canonical(v: Value): Value {
    match v
    case VBool(b) => VFloat(if b then 1.0 else 0.0)
    case VInt(i) => VFloat(i as real)
    case VTuple(xs) => VTuple(seq(|xs|, i requires 0 <= i < |xs| => Canonical(xs[i])))
    case _ => v
  }

  /** A tuple of two numbers is compared as the point it stands for:
      two such tuples are one set element exactly when their points are
      equal. */
  lemma CanonicalPoint(v: Value)
    requires v.VTuple? && IsNumericPair(v)
    ensures Hashable(v)
    ensures Canonical(v) == PointValue(AsPoint(v))
  {
    var xs := v.items;
    assert forall i :: 0 <= i < |xs| ==> IsNumber(xs[i]);
    assert Canonical(xs[0]) == VFloat(AsReal(xs[0]));
    assert Canonical(xs[1]) == VFloat(AsReal(xs[1]));
    assert Canonical(v).items == [VFloat(AsReal(xs[0])), VFloat(AsReal(xs[1]))];
  }

  lemma SamePointSameKey(a: Value, b: Value)
    requires a.VTuple? && IsNumericPair(a) && b.VTuple? && IsNumericPair(b)
    ensures Canonical(a) == Canonical(b) <==> AsPoint(a) == AsPoint(b)
  {
    CanonicalPoint(a);
    CanonicalPoint(b);
    PointValueRoundTrip(AsPoint(a));
    PointValueRoundTrip(AsPoint(b));
  }
}
