/** OutputSelector of blueshark/output/selector.py: the post-processing
    outputs requested by name, run per group or per phase. The FEMM
    post-processing functions are one parameter, `measure`, from output name
    and subject to result. */
module OutputSelector {
  import opened Wrappers
  import opened Definitions
  import opened Loops
  import opened Dicts

  /** available_outputs, in the source's order: four run per group, five
      per phase. */
  const GroupOutputs: seq<string> := ["force_lorentz", "torque_lorentz", "force_stress_tensor", "torque_stress_tensor"]
  const PhaseOutputs: seq<string> := ["phase_power", "phase_voltage", "phase_current", "phase_inductance", "phase_flux_linkage"]

  predicate IsAvailable(name: string) {
    name in GroupOutputs || name in PhaseOutputs
  }

  /** What a runner returns: a list of results for a list or tuple of
      subjects, one result for a single subject. */
  datatype Outputs = Many(results: seq<Value>) | Single(result: Value)

  /** The subjects key a runner reads. */
  function SubjectKey(name: string): string {
    if name in GroupOutputs then "group" else "phaseName"
  }

  /** The subjects hold the key the output reads, and it is not None. */
  predicate Found(subjects: seq<(string, Value)>, name: string) {
    Get(subjects, SubjectKey(name)) != VNone
  }

  /** _run_group and _run_phase: the subject key must be present and not
      None, or ValueError is raised. */
  function Run(measure: (string, Value) -> Value, name: string, subjects: seq<(string, Value)>): (r: Result<Outputs>)
    ensures r.Err? <==> !Found(subjects, name)
    ensures r.Err? ==> r.error == ValueError
  {
    var subject := Get(subjects, SubjectKey(name));
    if subject == VNone then Err(ValueError)
    else if IsSequence(subject) then
      Ok(Many(seq(|subject.items|, i requires 0 <= i < |subject.items| => measure(name, subject.items[i]))))
    else Ok(Single(measure(name, subject)))
  }

  /** A runner maps a list or tuple of subjects element by element, in
      order, and passes any other subject on as it is. */
  lemma RunResults(measure: (string, Value) -> Value, name: string, subjects: seq<(string, Value)>)
    ensures var r := Run(measure, name, subjects);
      r.Ok? && IsSequence(Get(subjects, SubjectKey(name))) ==>
        r.value.Many? && |r.value.results| == |Get(subjects, SubjectKey(name)).items| &&
        forall i :: 0 <= i < |r.value.results| ==>
          r.value.results[i] == measure(name, Get(subjects, SubjectKey(name)).items[i])
    ensures var r := Run(measure, name, subjects);
      r.Ok? && !IsSequence(Get(subjects, SubjectKey(name))) ==>
        r.value == Single(measure(name, Get(subjects, SubjectKey(name))))
  {
  }

  /** __init__: any name outside the available outputs raises ValueError;
      the names are kept as given, case included. */
  function Selection(requested: seq<string>): (r: Result<seq<string>>)
    ensures r.Ok? <==> forall n :: n in requested ==> IsAvailable(n)
    ensures r.Ok? ==> r.value == requested
    ensures r.Err? ==> r.error == ValueError
  {
    if exists n :: n in requested && !IsAvailable(n) then Err(ValueError) else Ok(requested)
  }

  /** compute as a value: the loop over the requested names. */
  function ComputeOver(names: seq<string>, measure: (string, Value) -> Value, subjects: seq<(string, Value)>)
    : (r: Result<seq<(string, Outputs)>>)
    ensures r.Err? ==> r.error == ValueError
  {
    if |names| == 0 then Ok([])
    else
      var last := names[|names| - 1];
      var init := ComputeOver(names[..|names| - 1], measure, subjects);
      if init.Err? then init
      else
        var run := Run(measure, last, subjects);
        if run.Err? then Err(run.error) else Ok(Put(init.value, last, run.value))
  }

  /** Whether a name finds its subject key in these subjects. */
  function FoundIn(subjects: seq<(string, Value)>): string -> bool {
    name => Found(subjects, name)
  }

  lemma {:induction false} ComputeAllFound(names: seq<string>, measure: (string, Value) -> Value, subjects: seq<(string, Value)>)
    ensures ComputeOver(names, measure, subjects).Ok? <==> All(FoundIn(subjects), names)
  {
    if |names| > 0 {
      ComputeAllFound(names[..|names| - 1], measure, subjects);
    }
  }

  /** compute succeeds exactly when each requested output finds its subject
      key. */
  lemma ComputeSucceeds(names: seq<string>, measure: (string, Value) -> Value, subjects: seq<(string, Value)>)
    ensures ComputeOver(names, measure, subjects).Ok? <==> forall i :: 0 <= i < |names| ==> Found(subjects, names[i])
  {
    ComputeAllFound(names, measure, subjects);
    AllEvery(FoundIn(subjects), names);
  }

  /** When compute succeeds, every requested output is a key of the
      results and every key is a requested output. */
  lemma {:induction false} ComputeKeys(names: seq<string>, measure: (string, Value) -> Value, subjects: seq<(string, Value)>)
    ensures ComputeOver(names, measure, subjects).Ok? ==>
      forall n :: n in Keys(ComputeOver(names, measure, subjects).value) <==> n in names
  {
    if |names| > 0 {
      var init := names[..|names| - 1];
      ComputeKeys(init, measure, subjects);
      assert names == init + [names[|names| - 1]];
      var r := ComputeOver(names, measure, subjects);
      if r.Ok? {
        var d := ComputeOver(init, measure, subjects).value;
        var last := names[|names| - 1];
        if last !in Keys(d) {
          assert Keys(r.value) == Keys(d) + [last];
        }
      }
    }
  }

  /** Each key of a successful compute holds its runner's results. */
  lemma {:induction false} ComputeValues(names: seq<string>, measure: (string, Value) -> Value, subjects: seq<(string, Value)>)
    ensures ComputeOver(names, measure, subjects).Ok? ==>
      forall i :: 0 <= i < |ComputeOver(names, measure, subjects).value| ==>
        Run(measure, ComputeOver(names, measure, subjects).value[i].0, subjects)
          == Ok(ComputeOver(names, measure, subjects).value[i].1)
  {
    if |names| > 0 {
      ComputeValues(names[..|names| - 1], measure, subjects);
    }
  }

  lemma ComputeStops(names: seq<string>, i: nat, measure: (string, Value) -> Value, subjects: seq<(string, Value)>)
    requires i < |names| && !Found(subjects, names[i])
    ensures ComputeOver(names, measure, subjects) == Err(ValueError)
  {
    ComputeSucceeds(names, measure, subjects);
  }

  class Selector {
    /** self.outputs: the requested names. */
    var outputs: seq<string>

    predicate Valid()
      reads this
    {
      forall n :: n in outputs ==> IsAvailable(n)
    }

    constructor (requested: seq<string>)
      requires forall n :: n in requested ==> IsAvailable(n)
      ensures Valid() && outputs == requested
    {
      outputs := requested;
    }

    /** __init__: the selection, or the ValueError it raises. */
    static method New(requested: seq<string>) returns (r: Result<Selector>)
      ensures r.Err? <==> Selection(requested).Err?
      ensures r.Err? ==> r.error == ValueError
      ensures r.Ok? ==> fresh(r.value) && r.value.Valid() && r.value.outputs == requested
    {
      var selection := Selection(requested);
      if selection.Err? {
        return Err(selection.error);
      }
      var s := new Selector(requested);
      return Ok(s);
    }

    /** compute: the loop over the requested outputs. */
    method Compute(measure: (string, Value) -> Value, subjects: seq<(string, Value)>)
      returns (r: Result<seq<(string, Outputs)>>)
      requires Valid()
      ensures r == ComputeOver(outputs, measure, subjects)
    {
      var results := [];
      for i := 0 to |outputs|
        invariant ComputeOver(outputs[..i], measure, subjects) == Ok(results)
      {
        assert outputs[..i + 1][..i] == outputs[..i];
        var name := outputs[i];
        var run := Run(measure, name, subjects);
        if run.Err? {
          ComputeStops(outputs, i, measure, subjects);
          return Err(run.error);
        }
        results := Put(results, name, run.value);
      }
      assert outputs[..|outputs|] == outputs;
      return Ok(results);
    }
  }

  /** Names are matched as given: "Force_Lorentz" is unknown. */
  lemma CaseSensitive()
    ensures Selection(["Force_Lorentz"]) == Err(ValueError)
    ensures Selection(["force_lorentz", "phase_power"]) == Ok(["force_lorentz", "phase_power"])
  {
    assert !IsAvailable("Force_Lorentz");
    assert IsAvailable("force_lorentz") by { assert GroupOutputs[0] == "force_lorentz"; }
    assert IsAvailable("phase_power") by { assert PhaseOutputs[0] == "phase_power"; }
  }

  /** A group list gives one result per group in order; a single group
      gives one result. */
  lemma GroupExamples(measure: (string, Value) -> Value)
    ensures Run(measure, "force_lorentz", [("group", VList([VInt(1), VInt(2)]))])
         == Ok(Many([measure("force_lorentz", VInt(1)), measure("force_lorentz", VInt(2))]))
    ensures Run(measure, "force_lorentz", [("group", VInt(1))]) == Ok(Single(measure("force_lorentz", VInt(1))))
    ensures Run(measure, "phase_power", [("group", VInt(1))]) == Err(ValueError)
  {
    assert SubjectKey("force_lorentz") == "group" by { assert GroupOutputs[0] == "force_lorentz"; }
    var many := Run(measure, "force_lorentz", [("group", VList([VInt(1), VInt(2)]))]).value.results;
    assert |many| == 2;
    assert many == [measure("force_lorentz", VInt(1)), measure("force_lorentz", VInt(2))];
    assert SubjectKey("phase_power") == "phaseName";
    assert Get([("group", VInt(1))], "phaseName") == VNone;
  }
}
