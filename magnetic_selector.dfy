/** FEMMagneticSelector of blueshark/solver/femm/magnetic/output_selector.py:
    which post-processing outputs a magnetic solve reports, and the results
    keyed by element id or circuit name. The FEMM post-processing functions
    are one parameter, `measure`, from output name and subject to result. */
module MagneticSelector {
  import opened Wrappers
  import opened Definitions
  import opened Dicts
  import opened Builtins
  import opened Loops

  /** How an output is applied: per element id or per circuit name. */
  datatype Runner = ElementRunner | CircuitRunner

  /** available_outputs, in the source's order. */
  const Available: seq<(string, Runner)> := [
    ("force_lorentz", ElementRunner),
    ("torque_lorentz", ElementRunner),
    ("force_stress_tensor", ElementRunner),
    ("torque_stress_tensor", ElementRunner),
    ("circuit_power", CircuitRunner),
    ("circuit_voltage", CircuitRunner),
    ("circuit_current", CircuitRunner),
    ("circuit_resistance", CircuitRunner),
    ("circuit_flux_linkage", CircuitRunner),
    ("circuit_inductance", CircuitRunner)]

  const AvailableNames: seq<string> := [
    "force_lorentz", "torque_lorentz", "force_stress_tensor", "torque_stress_tensor",
    "circuit_power", "circuit_voltage", "circuit_current", "circuit_resistance",
    "circuit_flux_linkage", "circuit_inductance"]

  /** The runner an output name is registered with; the four force and
      torque outputs run per element, the six circuit outputs per circuit. */
  function RunnerOf(name: string): Runner {
    if name in AvailableNames[..4] then ElementRunner else CircuitRunner
  }

  lemma RunnerOfMatchesTable(i: nat)
    requires i < |Available|
    ensures AvailableNames[i] == Available[i].0 && RunnerOf(Available[i].0) == Available[i].1
  {
    assert AvailableNames[..4] == ["force_lorentz", "torque_lorentz", "force_stress_tensor", "torque_stress_tensor"];
  }

  /** [out.lower() for out in requested_outputs], for string items. */
  function LowerAll(items: seq<Value>): (r: seq<string>)
    requires forall i :: 0 <= i < |items| ==> IsText(items[i])
    ensures |r| == |items|
    ensures forall i :: 0 <= i < |items| ==> r[i] == Lower(Text(items[i]))
  {
    seq(|items|, i requires 0 <= i < |items| => Lower(Text(items[i])))
  }

  /** What __init__ leaves in self.outputs. A str (a Connectors member is
      one) selects every output when it is "all" in any case and leaves the
      attribute unset otherwise. Anything else is iterated (TypeError if it
      cannot be; a dictionary yields its keys): an item without .lower()
      raises AttributeError, an unknown name ValueError, and otherwise the
      lower-cased names are selected in order. */
  function Selection(requested: Value): (r: Result<Option<seq<string>>>)
    ensures r.Ok? && r.value.Some? ==> forall n :: n in r.value.value ==> n in AvailableNames
    ensures IsText(requested) ==> r.Ok? && (r.value.Some? <==> Lower(Text(requested)) == "all")
    ensures !IsText(requested) && Iterate(requested).Err? ==> r == Err(TypeError)
    ensures !IsText(requested) && Iterate(requested).Ok? ==>
      var items := Iterate(requested).value;
      && ((exists i :: 0 <= i < |items| && !IsText(items[i])) ==> r == Err(AttributeError))
      && ((forall i :: 0 <= i < |items| ==> IsText(items[i])) ==>
            (r.Ok? <==> forall i :: 0 <= i < |items| ==> Lower(Text(items[i])) in AvailableNames))
    ensures r.Ok? && r.value.Some? && !IsText(requested) ==>
      var items := Iterate(requested).value;
      |r.value.value| == |items| &&
      forall i :: 0 <= i < |items| ==> IsText(items[i]) && r.value.value[i] == Lower(Text(items[i]))
    ensures r.Err? && r.error == ValueError ==> !IsText(requested)
  {
    if IsText(requested) then
      Ok(if Lower(Text(requested)) == "all" then Some(AvailableNames) else None)
    else
      var items :- Iterate(requested);
      if exists i :: 0 <= i < |items| && !IsText(items[i]) then Err(AttributeError)
      else
        var lower := LowerAll(items);
        if exists i :: 0 <= i < |lower| && lower[i] !in AvailableNames then Err(ValueError)
        else Ok(Some(lower))
  }

  /** The results dictionary of a runner: each subject once, in the order of
      its first occurrence, mapped to its measurement. */
  function Keyed(measure: (string, Value) -> Value, name: string, subjects: seq<Value>): (r: seq<(Value, Value)>)
    ensures |r| == |Dedup(subjects)|
    ensures forall i :: 0 <= i < |r| ==> r[i] == (Dedup(subjects)[i], measure(name, Dedup(subjects)[i]))
  {
    seq(|Dedup(subjects)|, i requires 0 <= i < |Dedup(subjects)| => (Dedup(subjects)[i], measure(name, Dedup(subjects)[i])))
  }

  /** The subjects a runner iterates: a list or tuple as it is, anything
      else wrapped into a one-element list. */
  function Subjects(subject: Value): (r: seq<Value>)
    ensures IsSequence(subject) ==> r == subject.items
    ensures !IsSequence(subject) ==> r == [subject]
  {
    if IsSequence(subject) then subject.items else [subject]
  }

  /** A subject a runner accepts: present and not empty, and every subject
      it iterates can be a dictionary key. */
  predicate Measurable(subject: Value) {
    && !Falsy(subject)
    && forall i :: 0 <= i < |Subjects(subject)| ==> Hashable(Subjects(subject)[i])
  }

  /** _run_element and _run_circuit: a missing or empty subject raises
      ValueError, a single subject is wrapped into a list, and the dict
      comprehension raises TypeError at a subject that cannot be a key. */
  function Run(measure: (string, Value) -> Value, name: string, subject: Value): (r: Result<seq<(Value, Value)>>)
    ensures r.Err? <==> !Measurable(subject)
    ensures Falsy(subject) ==> r == Err(ValueError)
    ensures !Falsy(subject) && r.Err? ==> r.error == TypeError
  {
    if Falsy(subject) then Err(ValueError)
    else
      var items := Subjects(subject);
      if exists i :: 0 <= i < |items| && !Hashable(items[i]) then Err(TypeError)
      else Ok(Keyed(measure, name, items))
  }

  /** A listed subject is a key of a successful run, holding its own
      measurement, exactly when it is listed; the run succeeds exactly when
      every listed subject can be a key. */
  lemma RunKeysAreSubjects(measure: (string, Value) -> Value, name: string, subject: Value, x: Value)
    requires IsSequence(subject) && |subject.items| > 0
    ensures Run(measure, name, subject).Ok? <==> forall i :: 0 <= i < |subject.items| ==> Hashable(subject.items[i])
    ensures Run(measure, name, subject).Ok? ==>
      ((exists i :: 0 <= i < |Run(measure, name, subject).value| && Run(measure, name, subject).value[i] == (x, measure(name, x)))
        <==> x in subject.items)
  {
    DedupSameElements(subject.items);
    if Run(measure, name, subject).Ok? && x in subject.items {
      var i :| 0 <= i < |Dedup(subject.items)| && Dedup(subject.items)[i] == x;
      assert Run(measure, name, subject).value[i] == (x, measure(name, x));
    }
  }

  /** A non-empty dictionary, or a list holding a list, is truthy but cannot
      be a key: the comprehension raises TypeError. */
  lemma UnhashableSubjectsRejected(measure: (string, Value) -> Value, name: string)
    ensures Run(measure, name, VDict([("a", VInt(1))])) == Err(TypeError)
    ensures Run(measure, name, VList([VList([VInt(1), VInt(2)])])) == Err(TypeError)
  {
    assert !Hashable(Subjects(VDict([("a", VInt(1))]))[0]);
    assert !Hashable(Subjects(VList([VList([VInt(1), VInt(2)])]))[0]);
  }

  /** A single element id is treated as a one-element list. */
  lemma ScalarSubjectWrapped(measure: (string, Value) -> Value, name: string, id: int)
    requires id != 0
    ensures Run(measure, name, VInt(id)) == Ok([(VInt(id), measure(name, VInt(id)))])
  {
    assert Dedup([VInt(id)]) == [VInt(id)];
    var k := Keyed(measure, name, [VInt(id)]);
    assert |k| == 1 && k[0] == (VInt(id), measure(name, VInt(id)));
    assert k == [(VInt(id), measure(name, VInt(id)))];
  }

  /** The truthiness test also refuses element id 0 given on its own, and
      an empty list. */
  lemma FalsySubjectsRejected(measure: (string, Value) -> Value, name: string)
    ensures Run(measure, name, VInt(0)) == Err(ValueError)
    ensures Run(measure, name, VList([])) == Err(ValueError)
    ensures Run(measure, name, VNone) == Err(ValueError)
  {
  }

  /** The subject an output is run on. */
  function SubjectFor(name: string, elements: Value, circuits: Value): Value {
    if RunnerOf(name) == ElementRunner then elements else circuits
  }

  /** compute as a value: the loop over names, stopping at the first
      runner that raises. */
  function ComputeOver(names: seq<string>, measure: (string, Value) -> Value, elements: Value, circuits: Value)
    : (r: Result<seq<(string, seq<(Value, Value)>)>>)
    ensures r.Err? ==> r.error == ValueError || r.error == TypeError
  {
    if |names| == 0 then Ok([])
    else
      var last := names[|names| - 1];
      var init := ComputeOver(names[..|names| - 1], measure, elements, circuits);
      if init.Err? then init
      else
        var run := Run(measure, last, SubjectFor(last, elements, circuits));
        if run.Err? then Err(run.error) else Ok(Put(init.value, last, run.value))
  }

  /** Whether an output finds a subject its runner accepts. */
  function HasSubject(elements: Value, circuits: Value): string -> bool {
    name => Measurable(SubjectFor(name, elements, circuits))
  }

  lemma {:induction false} ComputeAll(names: seq<string>, measure: (string, Value) -> Value, elements: Value, circuits: Value)
    ensures ComputeOver(names, measure, elements, circuits).Ok? <==> All(HasSubject(elements, circuits), names)
  {
    if |names| > 0 {
      ComputeAll(names[..|names| - 1], measure, elements, circuits);
    }
  }

  /** compute succeeds exactly when every selected output finds a subject
      its runner accepts. */
  lemma ComputeSucceeds(names: seq<string>, measure: (string, Value) -> Value, elements: Value, circuits: Value)
    ensures ComputeOver(names, measure, elements, circuits).Ok? <==>
      forall i :: 0 <= i < |names| ==> Measurable(SubjectFor(names[i], elements, circuits))
  {
    ComputeAll(names, measure, elements, circuits);
    AllEvery(HasSubject(elements, circuits), names);
  }

  /** The keys of a successful compute are the selected outputs, each once,
      in selection order. */
  lemma {:induction false} ComputeKeys(names: seq<string>, measure: (string, Value) -> Value, elements: Value, circuits: Value)
    ensures ComputeOver(names, measure, elements, circuits).Ok? ==>
      Keys(ComputeOver(names, measure, elements, circuits).value) == Dedup(names)
  {
    if |names| > 0 {
      ComputeKeys(names[..|names| - 1], measure, elements, circuits);
    }
  }

  /** Each key of a successful compute holds its runner's results. */
  lemma {:induction false} ComputeValues(names: seq<string>, measure: (string, Value) -> Value, elements: Value, circuits: Value)
    ensures ComputeOver(names, measure, elements, circuits).Ok? ==>
      forall i :: 0 <= i < |ComputeOver(names, measure, elements, circuits).value| ==>
        var (n, v) := ComputeOver(names, measure, elements, circuits).value[i];
        Run(measure, n, SubjectFor(n, elements, circuits)) == Ok(v)
  {
    if |names| > 0 {
      ComputeValues(names[..|names| - 1], measure, elements, circuits);
    }
  }

  class Selector {
    /** self.outputs; None while the attribute is unset. */
    var outputs: Option<seq<string>>

    predicate Valid()
      reads this
    {
      outputs.Some? ==> forall n :: n in outputs.value ==> n in AvailableNames
    }

    constructor (selected: Option<seq<string>>)
      requires selected.Some? ==> forall n :: n in selected.value ==> n in AvailableNames
      ensures Valid() && outputs == selected
    {
      outputs := selected;
    }

    /** __init__: the selection, or the exception it raises. */
    static method New(requested: Value) returns (r: Result<Selector>)
      ensures r.Err? <==> Selection(requested).Err?
      ensures r.Err? ==> r.error == Selection(requested).error
      ensures r.Ok? ==> fresh(r.value) && r.value.Valid() && r.value.outputs == Selection(requested).value
    {
      var selection := Selection(requested);
      if selection.Err? {
        return Err(selection.error);
      }
      var s := new Selector(selection.value);
      return Ok(s);
    }

    /** compute: the loop over the selected outputs. Without a selection
        self.outputs is unset, and reading it raises AttributeError. */
    method Compute(measure: (string, Value) -> Value, elements: Value, circuits: Value)
      returns (r: Result<seq<(string, seq<(Value, Value)>)>>)
      requires Valid()
      ensures outputs.None? ==> r == Err(AttributeError)
      ensures outputs.Some? ==> r == ComputeOver(outputs.value, measure, elements, circuits)
    {
      if outputs.None? {
        return Err(AttributeError);
      }
      var names := outputs.value;
      var results := [];
      for i := 0 to |names|
        invariant ComputeOver(names[..i], measure, elements, circuits) == Ok(results)
      {
        ComputeTurn(names, i, measure, elements, circuits);
        var name := names[i];
        var run := Run(measure, name, SubjectFor(name, elements, circuits));
        if run.Err? {
          ComputeErrSticks(names, i + 1, measure, elements, circuits);
          return Err(run.error);
        }
        results := Put(results, name, run.value);
      }
      assert names[..|names|] == names;
      return Ok(results);
    }
  }

  /** Turn i of the loop, after turns 0 to i - 1 succeeded. */
  lemma ComputeTurn(names: seq<string>, i: nat, measure: (string, Value) -> Value, elements: Value, circuits: Value)
    requires i < |names| && ComputeOver(names[..i], measure, elements, circuits).Ok?
    ensures var run := Run(measure, names[i], SubjectFor(names[i], elements, circuits));
      ComputeOver(names[..i + 1], measure, elements, circuits)
        == if run.Err? then Err(run.error)
           else Ok(Put(ComputeOver(names[..i], measure, elements, circuits).value, names[i], run.value))
  {
    assert names[..i + 1][..i] == names[..i];
  }

  /** Once a prefix of the outputs has raised, the later ones are not run. */
  lemma {:induction false} ComputeErrSticks(names: seq<string>, k: nat, measure: (string, Value) -> Value, elements: Value, circuits: Value)
    requires k <= |names| && ComputeOver(names[..k], measure, elements, circuits).Err?
    ensures ComputeOver(names, measure, elements, circuits) == ComputeOver(names[..k], measure, elements, circuits)
    decreases |names| - k
  {
    if k < |names| {
      assert names[..k + 1][..k] == names[..k];
      ComputeErrSticks(names, k + 1, measure, elements, circuits);
    } else {
      assert names[..k] == names;
    }
  }

  /** The first output whose subject its runner refuses makes the whole
      computation raise that runner's error: ValueError for a missing
      subject, TypeError for one that cannot be a key. */
  lemma ComputeStops(names: seq<string>, i: nat, measure: (string, Value) -> Value, elements: Value, circuits: Value)
    requires i < |names| && !Measurable(SubjectFor(names[i], elements, circuits))
    requires forall j :: 0 <= j < i ==> Measurable(SubjectFor(names[j], elements, circuits))
    ensures ComputeOver(names, measure, elements, circuits)
      == Err(Run(measure, names[i], SubjectFor(names[i], elements, circuits)).error)
  {
    ComputeSucceeds(names[..i], measure, elements, circuits);
    ComputeTurn(names, i, measure, elements, circuits);
    ComputeErrSticks(names, i + 1, measure, elements, circuits);
  }

  /** "ALL" selects every output; another string leaves the selection unset. */
  lemma AllInAnyCase()
    ensures Selection(VStr("ALL")) == Ok(Some(AvailableNames))
    ensures Selection(VStr("force")) == Ok(None)
  {
    assert Lower("ALL") == "all";
    assert Lower("force") != "all";
  }

  /** A list is lower-cased; an unknown name raises ValueError. */
  lemma ListSelections()
    ensures Selection(VList([VStr("Force_Lorentz")])) == Ok(Some(["force_lorentz"]))
    ensures Selection(VList([VStr("flux")])) == Err(ValueError)
  {
    assert Lower("Force_Lorentz") == "force_lorentz";
    assert LowerAll([VStr("Force_Lorentz")]) == ["force_lorentz"];
    assert "force_lorentz" in AvailableNames by { assert AvailableNames[0] == "force_lorentz"; }
    assert Lower("flux") == "flux";
    assert LowerAll([VStr("flux")]) == ["flux"];
    assert "flux" !in AvailableNames;
  }
}
