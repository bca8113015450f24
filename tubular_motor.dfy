/** The tubular linear motor of blueshark/models/tubular/motor.py: the
    derived pitches, the slot and pole layout it draws, the circuits it
    creates and the quasi-transient timeline it builds. Parameters arrive
    already read from motor.yaml and materials already resolved by the
    material manager. */
module TubularMotor {
  import opened Wrappers
  import opened Numbers
  import opened Definitions
  import opened RendererLog
  import opened QuasiTransient
  import MaterialManager
  import PreprocessGeometry
  import Validation
  import Area
  import Centroid
  import TubularTurns
  import Commutation

  /** The group ids of the slots, the poles and the tube. */
  const SlotId: int := 1
  const PoleId: int := 2
  const TubeId: int := 3

  /** The phase circuits, in order. */
  const Phases: seq<string> := ["a", "b", "c"]

  /** The numbers _unpack reads from the parameter file. */
  datatype Parameters = Parameters(
    numberSlots: int, numberPoles: int, extraPairs: int,
    dCurrents: real, qCurrents: real, fillFactor: real,
    slotInnerRadius: real, slotOuterRadius: real, slotAxialLength: real,
    slotAxialSpacing: real, slotWireDiameter: real,
    poleOuterRadius: real, poleAxialLength: real,
    tubeInnerRadius: real, tubeOuterRadius: real)

  /** _rectangle_geometry: a rectangle given by its bottom-left corner,
      corners listed right, up, then left. */
  function RectangleGeometry(bottomLeft: Point, width: real, height: real): seq<(string, Value)> {
    [("shape", VShape(Rectangle)),
     ("points", Area.PointList(PreprocessGeometry.Corners(bottomLeft, width, height))),
     ("enclosed", VBool(true))]
  }

  /** The rectangle is a valid shape whose area is |width · height| and,
      when it has an area, whose centroid is its centre. */
  lemma RectangleGeometryIsRectangle(trig: Trig, bottomLeft: Point, width: real, height: real)
    ensures Validation.ValidateShape(RectangleGeometry(bottomLeft, width, height)) == Pass
    ensures Area.AreaOf(RectangleGeometry(bottomLeft, width, height)) == Ok(Abs(width * height))
    ensures width != 0.0 && height != 0.0 ==>
      Centroid.CentroidOf(trig, RectangleGeometry(bottomLeft, width, height))
        == Ok([bottomLeft.0 + width / 2.0, bottomLeft.1 + height / 2.0])
  {
    var g := RectangleGeometry(bottomLeft, width, height);
    var pts := PreprocessGeometry.Corners(bottomLeft, width, height);
    assert g[0].0 == "shape";
    assert Get(g, "shape") == VShape(Rectangle);
    assert g[1].0 == "points";
    assert Get(g, "points") == Area.PointList(pts);
    var points := Area.PointList(pts);
    assert forall i :: 0 <= i < |points.items| ==> points.items[i] == PointValue(pts[i]);
    assert Validation.ValidPoints(points);
    Area.PointListArea(pts);
    Area.RectangleArea(bottomLeft.0, bottomLeft.1, width, height);
    if width != 0.0 && height != 0.0 {
      Centroid.PointListCentroid(pts);
      Centroid.RectangleCentroid(bottomLeft.0, bottomLeft.1, width, height);
    }
  }

  /** What _compute_geometry derives. */
  datatype Derived = Derived(slotPitch: real, circumference: real, polePitch: real,
                             poleAxialLength: real, totalNumberPoles: int)

  /** _compute_geometry as a value: dividing by zero poles raises
      ZeroDivisionError. */
  function GeometryOf(p: Parameters): (r: Result<Derived>)
    ensures r.Err? <==> p.numberPoles == 0
    ensures r.Err? ==> r.error == ZeroDivisionError
  {
    var slotPitch := p.slotAxialLength + p.slotAxialSpacing;
    var circumference := slotPitch * p.numberSlots as real;
    if p.numberPoles == 0 then Err(ZeroDivisionError)
    else
      var polePitch := circumference / p.numberPoles as real;
      var poleAxialLength := if polePitch != p.poleAxialLength then polePitch else p.poleAxialLength;
      Ok(Derived(slotPitch, circumference, polePitch, poleAxialLength, 4 * p.extraPairs + p.numberPoles))
  }

  /** The circumference is one slot pitch per slot and one pole pitch per
      pole; each pole is as long as its pitch, whatever length was asked
      for; the extra pairs add four poles each. */
  lemma GeometryPitches(p: Parameters)
    requires p.numberPoles != 0
    ensures GeometryOf(p).value.circumference
         == (p.slotAxialLength + p.slotAxialSpacing) * p.numberSlots as real
    ensures GeometryOf(p).value.polePitch * p.numberPoles as real == GeometryOf(p).value.circumference
    ensures GeometryOf(p).value.poleAxialLength == GeometryOf(p).value.polePitch
    ensures GeometryOf(p).value.totalNumberPoles == p.numberPoles + 4 * p.extraPairs
  {
    var d := GeometryOf(p).value;
    assert d.polePitch == d.circumference / p.numberPoles as real;
  }

  /** The axial position z of slot i: starting from `start`, each slot adds
      its axial length, plus the spacing unless its index is a multiple of
      three. */
  function SlotZ(start: real, axial: real, spacing: real, i: nat): real {
    var step := if i % 3 != 0 then axial + spacing else axial;
    if i == 0 then start + step else SlotZ(start, axial, spacing, i - 1) + step
  }

  /** With the start at minus one slot pitch, slot i lies at
      i · axial + (i - i / 3 - 1) · spacing: the slots come in groups of
      three, spaced apart within a group and touching across groups. */
  lemma {:induction false} SlotZClosedForm(axial: real, spacing: real, i: nat)
    ensures SlotZ(-(axial + spacing), axial, spacing, i)
         == i as real * axial + (i - i / 3 - 1) as real * spacing
  {
    if i > 0 {
      var j: nat := i - 1;
      SlotZClosedForm(axial, spacing, j);
      var k := i - i / 3 - 1;
      var previous := SlotZ(-(axial + spacing), axial, spacing, j);
      assert previous == j as real * axial + (j - j / 3 - 1) as real * spacing;
      assert i as real * axial == (i - 1) as real * axial + axial;
      if i % 3 == 0 {
        assert (i - 1) / 3 == i / 3 - 1;
        assert (i - 1) - (i - 1) / 3 - 1 == k;
        assert SlotZ(-(axial + spacing), axial, spacing, i) == previous + axial;
      } else {
        assert (i - 1) / 3 == i / 3;
        assert (i - 1) - (i - 1) / 3 - 1 == k - 1;
        assert k as real * spacing == (k - 1) as real * spacing + spacing;
        assert SlotZ(-(axial + spacing), axial, spacing, i) == previous + (axial + spacing);
      }
    } else {
      assert (0 - 0 / 3 - 1) as real * spacing == -spacing;
    }
  }

  /** Slot i + 1 starts one axial length after slot i plus the spacing,
      except where i + 1 is a multiple of three: with a non-negative
      spacing no two slots overlap. */
  lemma SlotGap(start: real, axial: real, spacing: real, i: nat)
    ensures SlotZ(start, axial, spacing, i + 1) - (SlotZ(start, axial, spacing, i) + axial)
         == if (i + 1) % 3 == 0 then 0.0 else spacing
    ensures spacing >= 0.0 ==> SlotZ(start, axial, spacing, i + 1) >= SlotZ(start, axial, spacing, i) + axial
  {
  }

  /** The phase of slot i: the phases in turn. */
  function PhaseOf(i: nat): string {
    Phases[i % |Phases|]
  }

  /** The polarity of slot i: forward on even slots. */
  function PolarityOf(i: nat): Polarity {
    if i % 2 == 0 then Forward else Reverse
  }

  /** The winding pattern repeats every six slots: a+, b-, c+, a-, b+, c-;
      each phase is wound once forward and once in reverse. */
  const SixSlots: seq<(string, Polarity)> :=
    [("a", Forward), ("b", Reverse), ("c", Forward), ("a", Reverse), ("b", Forward), ("c", Reverse)]

  lemma SixSlotArithmetic(i: nat)
    ensures i % 3 == (i % 6) % 3 && i % 2 == (i % 6) % 2
    ensures (i + 3) % 3 == i % 3 && (i + 3) % 2 != i % 2
  {
    var q := i / 6;
    var r := i % 6;
    assert i == 6 * q + r;
    assert i / 3 == 2 * q + r / 3;
    assert i / 2 == 3 * q + r / 2;
    assert (i + 3) / 3 == i / 3 + 1;
    assert (i + 3) / 2 == 3 * q + (r + 3) / 2;
  }

  lemma SlotPattern(i: nat)
    ensures (PhaseOf(i), PolarityOf(i)) == SixSlots[i % 6]
    ensures PhaseOf(i + 3) == PhaseOf(i) && PolarityOf(i + 3) != PolarityOf(i)
  {
    SixSlotArithmetic(i);
    assert |Phases| == 3;
  }

  /** The turns every slot is drawn with. */
  function SlotTurns(p: Parameters, slotThickness: real): Result<int> {
    TubularTurns.EstimateTurns(slotThickness, p.slotAxialLength, p.slotWireDiameter, p.fillFactor)
  }

  /** The draw of slot i. */
  function SlotDraw(p: Parameters, slotPitch: real, slotThickness: real, material: MaterialManager.Material,
                    turns: int, i: nat): Call {
    var origin := (p.slotInnerRadius, SlotZ(-slotPitch, p.slotAxialLength, p.slotAxialSpacing, i));
    Draw(RectangleGeometry(origin, slotThickness, p.slotAxialLength), material, SlotId,
         Some(PhaseOf(i)), Some(turns), Some(PolarityOf(i)), None)
  }

  /** The draws of _add_armature: one per slot, in slot order. */
  function ArmatureDraws(p: Parameters, slotPitch: real, slotThickness: real,
                         material: MaterialManager.Material, turns: int): seq<Call> {
    var n := if p.numberSlots < 0 then 0 else p.numberSlots;
    seq(n, i requires 0 <= i < n => SlotDraw(p, slotPitch, slotThickness, material, turns, i))
  }

  /** The magnetization angle of pole i: +90 on even poles, -90 on odd
      ones. */
  function Magnetization(i: nat): int {
    if i % 2 == 0 then 90 else -90
  }

  /** The origin of pole i: shifted down by two extra pairs' worth of pole
      pitches. */
  function PoleOrigin(polePitch: real, extraPairs: int, i: nat): Point {
    (0.0, polePitch * i as real - 2.0 * (extraPairs as real * polePitch))
  }

  /** The origin and length of the tube. */
  function TubeOrigin(p: Parameters, poleAxialLength: real): Point {
    (p.poleOuterRadius, -(2 * p.extraPairs) as real * poleAxialLength)
  }

  function TubeLength(poleAxialLength: real, totalNumberPoles: int): real {
    poleAxialLength * totalNumberPoles as real
  }

  /** The draw of pole i. */
  function PoleDraw(p: Parameters, d: Derived, poleThickness: real, material: MaterialManager.Material,
                    i: nat): Call {
    Draw(RectangleGeometry(PoleOrigin(d.polePitch, p.extraPairs, i), poleThickness, d.poleAxialLength),
         material, PoleId, None, None, None, Some(Magnetization(i)))
  }

  /** The draw of the tube. */
  function TubeDraw(p: Parameters, d: Derived, tubeThickness: real, material: MaterialManager.Material): Call {
    Draw(RectangleGeometry(TubeOrigin(p, d.poleAxialLength), tubeThickness,
                           TubeLength(d.poleAxialLength, d.totalNumberPoles)),
         material, TubeId, None, None, None, None)
  }

  /** The draws of _add_stator: one per pole, in pole order, then the
      tube. */
  function StatorDraws(p: Parameters, d: Derived, poleThickness: real, tubeThickness: real,
                       poleMaterial: MaterialManager.Material, tubeMaterial: MaterialManager.Material): seq<Call> {
    var n := if d.totalNumberPoles < 0 then 0 else d.totalNumberPoles;
    seq(n, i requires 0 <= i < n => PoleDraw(p, d, poleThickness, poleMaterial, i))
    + [TubeDraw(p, d, tubeThickness, tubeMaterial)]
  }

  /** Once the pole length equals the pole pitch, the poles stack end to
      end along the tube: the first starts where the tube starts, each
      starts where the one before ends, and the last ends where the tube
      ends. Magnetization alternates from pole to pole. */
  lemma PolesTileTube(p: Parameters, polePitch: real, totalNumberPoles: int, i: nat)
    requires 0 < totalNumberPoles
    requires i < totalNumberPoles
    ensures PoleOrigin(polePitch, p.extraPairs, 0).1 == TubeOrigin(p, polePitch).1
    ensures i + 1 < totalNumberPoles ==>
      PoleOrigin(polePitch, p.extraPairs, i).1 + polePitch == PoleOrigin(polePitch, p.extraPairs, i + 1).1 &&
      Magnetization(i + 1) == -Magnetization(i)
    ensures PoleOrigin(polePitch, p.extraPairs, totalNumberPoles - 1).1 + polePitch
         == TubeOrigin(p, polePitch).1 + TubeLength(polePitch, totalNumberPoles)
  {
    var e := p.extraPairs as real;
    var t := totalNumberPoles as real;
    assert (t - 1.0) * polePitch + polePitch == t * polePitch;
    assert -(2 * p.extraPairs) as real * polePitch == -2.0 * (e * polePitch);
  }

  /** The frame of one current sample: the slots move by one step along
      the axis, and the sample's three currents go to the phases a, b, c. */
  function TimelineFrame(stepSize: real, sample: (real, real, real)): Frame {
    Frame(Some(LinearMotion(stepSize, (PI / 2.0, 0.0, 0.0))), None, VInt(SlotId),
          Some(Currents([sample.0, sample.1, sample.2], Phases)))
  }

  /** The commutation timeline commutation is asked for: pole pairs are
      the floor of half the poles, the peak currents the (d, q) pair. */
  function TimelineCommutation(trig: Trig, circumference: real, numberPoles: int, dCurrents: real,
                               qCurrents: real, numberSamples: Value, phaseOffset: real)
    : Result<(real, seq<(real, real, real)>)>
  {
    Commutation.CommutationOf(trig, VFloat(circumference), VInt(numberPoles / 2),
                              VTuple([VFloat(dCurrents), VFloat(qCurrents)]), numberSamples, phaseOffset)
  }

  /** timeline as a value: one frame per commutation sample. */
  function TimelineOf(trig: Trig, circumference: real, numberPoles: int, dCurrents: real,
                      qCurrents: real, numberSamples: Value, phaseOffset: real): (r: Result<seq<Frame>>)
    ensures r.Err? <==>
      TimelineCommutation(trig, circumference, numberPoles, dCurrents, qCurrents, numberSamples, phaseOffset).Err?
  {
    var c := TimelineCommutation(trig, circumference, numberPoles, dCurrents, qCurrents, numberSamples, phaseOffset);
    if c.Err? then Err(c.error)
    else
      var (stepSize, profile) := c.value;
      Ok(seq(|profile|, i requires 0 <= i < |profile| => TimelineFrame(stepSize, profile[i])))
  }

  /** The timeline has one frame per sample, numberSamples + 1 in all;
      each moves the slots by a step, numberSamples steps making up the
      circumference, and carries three currents that sum to zero for the
      phases a, b and c. */
  lemma TimelineShape(trig: Trig, circumference: real, numberPoles: int, dCurrents: real,
                      qCurrents: real, numberSamples: Value, phaseOffset: real)
    requires TimelineOf(trig, circumference, numberPoles, dCurrents, qCurrents, numberSamples, phaseOffset).Ok?
    ensures var frames := TimelineOf(trig, circumference, numberPoles, dCurrents, qCurrents, numberSamples, phaseOffset).value;
      Commutation.IsInt(numberSamples) &&
      |frames| == Commutation.AsInt(numberSamples) + 1 &&
      forall i :: 0 <= i < |frames| ==>
        frames[i].elements == VInt(SlotId) &&
        frames[i].motion.Some? && frames[i].motion.value.LinearMotion? &&
        frames[i].motion.value.magnitude * Commutation.AsInt(numberSamples) as real == circumference &&
        frames[i].currents.Some? && frames[i].currents.value.circuits == Phases &&
        |frames[i].currents.value.values| == 3 &&
        frames[i].currents.value.values[0] + frames[i].currents.value.values[1]
          + frames[i].currents.value.values[2] == 0.0
  {
    var cv := VFloat(circumference);
    var pv := VInt(numberPoles / 2);
    var iv := VTuple([VFloat(dCurrents), VFloat(qCurrents)]);
    Commutation.ProfileShape(trig, cv, pv, iv, numberSamples, phaseOffset);
    var n := Commutation.AsInt(numberSamples);
    var profile := Commutation.CommutationOf(trig, cv, pv, iv, numberSamples, phaseOffset).value.1;
    forall k | 0 <= k <= n
      ensures profile[k].0 + profile[k].1 + profile[k].2 == 0.0
    {
      Commutation.SamplesBalanced(trig, circumference, numberPoles / 2, dCurrents, qCurrents, n, phaseOffset, k);
    }
  }

  /** Fewer than two poles means no pole pair: the timeline raises
      ValueError. */
  lemma TimelineNeedsAPolePair(trig: Trig, circumference: real, numberPoles: int, dCurrents: real,
                               qCurrents: real, numberSamples: Value, phaseOffset: real)
    requires numberPoles < 2
    ensures TimelineOf(trig, circumference, numberPoles, dCurrents, qCurrents, numberSamples, phaseOffset)
         == Err(ValueError)
  {
    assert numberPoles / 2 <= 0;
  }

  /** Run through the quasi-transient loop on a magnetic renderer with a
      solver that never fails, the timeline gives one result per frame. */
  lemma TimelineRuns(trig: Trig, circumference: real, numberPoles: int, dCurrents: real,
                     qCurrents: real, numberSamples: Value, phaseOffset: real,
                     solve: seq<Call> -> Result<Value>, history: seq<Call>)
    requires TimelineOf(trig, circumference, numberPoles, dCurrents, qCurrents, numberSamples, phaseOffset).Ok?
    requires forall h :: solve(h).Ok?
    ensures var frames := TimelineOf(trig, circumference, numberPoles, dCurrents, qCurrents, numberSamples, phaseOffset).value;
      Loop(true, solve, frames, 0, history).0.Ok? &&
      |Loop(true, solve, frames, 0, history).0.value| == |frames|
  {
    var frames := TimelineOf(trig, circumference, numberPoles, dCurrents, qCurrents, numberSamples, phaseOffset).value;
    TimelineShape(trig, circumference, numberPoles, dCurrents, qCurrents, numberSamples, phaseOffset);
    LoopSucceeds(true, solve, frames, 0, history);
    LoopResults(true, solve, frames, 0, history);
  }

  /** TubularLinearMotor: the parameters as read, the materials as
      resolved, and the fields _compute_geometry writes. */
  class Motor {
    const renderer: Recorder
    const params: Parameters
    const slotMaterial: MaterialManager.Material
    const poleMaterial: MaterialManager.Material
    const tubeMaterial: MaterialManager.Material
    const slotThickness: real
    const tubeThickness: real
    const poleThickness: real
    var poleAxialLength: real
    var slotPitch: real
    var circumference: real
    var polePitch: real
    var totalNumberPoles: int
    var physics: MagneticPhysics?

    /** The derived fields as they stand. */
    function Fields(): Derived
      reads this
    {
      Derived(slotPitch, circumference, polePitch, poleAxialLength, totalNumberPoles)
    }

    /** The geometry has been computed, and the magnetic physics is
      attached. */
    predicate Valid()
      reads this, physics
    {
      GeometryOf(params).Ok? && Fields() == GeometryOf(params).value &&
      physics != null && physics.motor == this && physics.renderer == renderer
    }

    /** The attributes _unpack sets, thicknesses included. */
    constructor (renderer: Recorder, params: Parameters, slotMaterial: MaterialManager.Material,
                 poleMaterial: MaterialManager.Material, tubeMaterial: MaterialManager.Material)
      ensures this.renderer == renderer && this.params == params
      ensures this.slotMaterial == slotMaterial && this.poleMaterial == poleMaterial
      ensures this.tubeMaterial == tubeMaterial
      ensures slotThickness == params.slotOuterRadius - params.slotInnerRadius
      ensures tubeThickness == params.tubeOuterRadius - params.tubeInnerRadius
      ensures poleThickness == params.poleOuterRadius
      ensures poleAxialLength == params.poleAxialLength && physics == null
    {
      this.renderer := renderer;
      this.params := params;
      this.slotMaterial := slotMaterial;
      this.poleMaterial := poleMaterial;
      this.tubeMaterial := tubeMaterial;
      slotThickness := params.slotOuterRadius - params.slotInnerRadius;
      tubeThickness := params.tubeOuterRadius - params.tubeInnerRadius;
      poleThickness := params.poleOuterRadius;
      poleAxialLength := params.poleAxialLength;
      physics := null;
    }

    /** _compute_geometry: the slot pitch and circumference are written
      before the division by the number of poles can fail. */
    method ComputeGeometry() returns (r: Outcome)
      requires poleAxialLength == params.poleAxialLength
      modifies this
      ensures r.Fail? <==> GeometryOf(params).Err?
      ensures r.Fail? ==> r.error == ZeroDivisionError
      ensures slotPitch == params.slotAxialLength + params.slotAxialSpacing
      ensures circumference == slotPitch * params.numberSlots as real
      ensures r.Pass? ==> Fields() == GeometryOf(params).value
      ensures r.Fail? ==> polePitch == old(polePitch) && poleAxialLength == old(poleAxialLength)
                          && totalNumberPoles == old(totalNumberPoles)
      ensures physics == old(physics)
    {
      slotPitch := params.slotAxialLength + params.slotAxialSpacing;
      circumference := slotPitch * params.numberSlots as real;
      if params.numberPoles == 0 {
        return Fail(ZeroDivisionError);
      }
      polePitch := circumference / params.numberPoles as real;
      if polePitch != poleAxialLength {
        poleAxialLength := polePitch;
      }
      totalNumberPoles := 4 * params.extraPairs + params.numberPoles;
      return Pass;
    }

    /** __init__: the geometry is computed, then a renderer that is not
      magnetic raises TypeError. */
    static method New(renderer: Recorder, params: Parameters, slotMaterial: MaterialManager.Material,
                      poleMaterial: MaterialManager.Material, tubeMaterial: MaterialManager.Material)
      returns (r: Result<Motor>)
      ensures r.Err? <==> params.numberPoles == 0 || !renderer.magnetic
      ensures r.Err? ==> r.error == if params.numberPoles == 0 then ZeroDivisionError else TypeError
      ensures r.Ok? ==> fresh(r.value) && fresh(r.value.physics) && r.value.Valid()
      ensures r.Ok? ==> r.value.renderer == renderer && r.value.params == params
      ensures r.Ok? ==> r.value.slotMaterial == slotMaterial && r.value.poleMaterial == poleMaterial
                        && r.value.tubeMaterial == tubeMaterial
      ensures r.Ok? ==> r.value.slotThickness == params.slotOuterRadius - params.slotInnerRadius
                        && r.value.tubeThickness == params.tubeOuterRadius - params.tubeInnerRadius
                        && r.value.poleThickness == params.poleOuterRadius
    {
      var motor := new Motor(renderer, params, slotMaterial, poleMaterial, tubeMaterial);
      var computed := motor.ComputeGeometry();
      if computed.Fail? {
        return Err(computed.error);
      }
      if !renderer.magnetic {
        return Err(TypeError);
      }
      var physics := new MagneticPhysics(motor);
      motor.physics := physics;
      return Ok(motor);
    }

    /** setup: the renderer is set up axi-symmetric in millimetres, then
      the magnetic physics draws the motor. */
    method Setup() returns (r: Outcome)
      requires Valid()
      modifies renderer
      ensures r == physics.ArmatureOutcome()
      ensures renderer.calls == old(renderer.calls) + [RendererLog.Setup(AxiSymmetric, ConvertUnits.Millimeter)]
        + physics.CircuitCalls() + physics.StatorCalls()
        + (if r.Pass? then physics.ArmatureCalls() else [])
    {
      renderer.Receive(RendererLog.Setup(AxiSymmetric, ConvertUnits.Millimeter));
      r := physics.Setup();
    }
  }

  /** MagneticPhysics: draws the motor it belongs to on the motor's
      renderer. */
  class MagneticPhysics {
    const motor: Motor
    const renderer: Recorder

    constructor (motor: Motor)
      ensures this.motor == motor && renderer == motor.renderer
    {
      this.motor := motor;
      renderer := motor.renderer;
    }

    /** The turns of every slot, or the ValueError estimate_turns raises. */
    function ArmatureOutcome(): Outcome
      reads this, motor
    {
      var turns := SlotTurns(motor.params, motor.slotThickness);
      if turns.Err? then Fail(turns.error) else Pass
    }

    function ArmatureCalls(): seq<Call>
      reads this, motor
      requires ArmatureOutcome().Pass?
    {
      ArmatureDraws(motor.params, motor.slotPitch, motor.slotThickness, motor.slotMaterial,
                    SlotTurns(motor.params, motor.slotThickness).value)
    }

    function StatorCalls(): seq<Call>
      reads this, motor
    {
      StatorDraws(motor.params, motor.Fields(), motor.poleThickness, motor.tubeThickness,
                  motor.poleMaterial, motor.tubeMaterial)
    }

    function CircuitCalls(): seq<Call> {
      seq(|Phases|, i requires 0 <= i < |Phases| => CreateCircuit(Phases[i], Series))
    }

    /** setup: circuits, then the stator, then the armature. */
    method Setup() returns (r: Outcome)
      modifies renderer
      ensures r == ArmatureOutcome()
      ensures renderer.calls == old(renderer.calls) + CircuitCalls() + StatorCalls()
        + (if r.Pass? then ArmatureCalls() else [])
    {
      CreateCircuits();
      AddStator();
      r := AddArmature();
    }

    /** _create_circuits: one series circuit per phase. */
    method CreateCircuits()
      modifies renderer
      ensures renderer.calls == old(renderer.calls) + CircuitCalls()
    {
      for i := 0 to |Phases|
        invariant renderer.calls == old(renderer.calls)
          + seq(i, j requires 0 <= j < i => CreateCircuit(Phases[j], Series))
      {
        renderer.Receive(CreateCircuit(Phases[i], Series));
      }
    }

    /** _add_armature: the slot origins first, then the turns (which may
      raise before anything is drawn), then one draw per slot. */
    method AddArmature() returns (r: Outcome)
      modifies renderer
      ensures r == ArmatureOutcome()
      ensures r.Pass? ==> renderer.calls == old(renderer.calls) + ArmatureCalls()
      ensures r.Fail? ==> renderer.calls == old(renderer.calls)
    {
      var origins := SlotOrigins(motor.params, motor.slotPitch);
      var turns := TubularTurns.EstimateTurns(motor.slotThickness, motor.params.slotAxialLength,
                                              motor.params.slotWireDiameter, motor.params.fillFactor);
      if turns.Err? {
        return Fail(turns.error);
      }
      for index := 0 to |origins|
        invariant renderer.calls == old(renderer.calls) + ArmatureCalls()[..index]
      {
        var phase := Phases[index % |Phases|];
        var polarity := if index % 2 == 0 then Forward else Reverse;
        var slot := RectangleGeometry(origins[index], motor.slotThickness, motor.params.slotAxialLength);
        renderer.Receive(Draw(slot, motor.slotMaterial, SlotId, Some(phase), Some(turns.value), Some(polarity), None));
        assert ArmatureCalls()[..index + 1] == ArmatureCalls()[..index] + [ArmatureCalls()[index]];
      }
      assert ArmatureCalls()[..|origins|] == ArmatureCalls();
      return Pass;
    }

    /** _add_stator: the pole origins, one draw per pole, then the tube. */
    method AddStator()
      modifies renderer
      ensures renderer.calls == old(renderer.calls) + StatorCalls()
    {
      var p, d := motor.params, motor.Fields();
      var poleThickness, poleMaterial := motor.poleThickness, motor.poleMaterial;
      var n := if d.totalNumberPoles < 0 then 0 else d.totalNumberPoles;
      var origins := PoleOrigins(d.polePitch, p.extraPairs, n);
      ghost var poles := seq(n, i requires 0 <= i < n => PoleDraw(p, d, poleThickness, poleMaterial, i));
      for index := 0 to n
        invariant renderer.calls == old(renderer.calls) + poles[..index]
      {
        var magnetization := if index % 2 == 0 then 90 else -90;
        var pole := RectangleGeometry(origins[index], poleThickness, d.poleAxialLength);
        renderer.Receive(Draw(pole, poleMaterial, PoleId, None, None, None, Some(magnetization)));
        assert poles[..index + 1] == poles[..index] + [poles[index]];
      }
      var tubeAxialLength := d.poleAxialLength * d.totalNumberPoles as real;
      var tubeOrigin := (p.poleOuterRadius, -(2 * p.extraPairs) as real * d.poleAxialLength);
      var tube := RectangleGeometry(tubeOrigin, motor.tubeThickness, tubeAxialLength);
      assert tubeOrigin.0 == TubeOrigin(p, d.poleAxialLength).0;
      assert tubeOrigin.1 == TubeOrigin(p, d.poleAxialLength).1;
      assert tubeAxialLength == TubeLength(d.poleAxialLength, d.totalNumberPoles);
      assert tube == RectangleGeometry(TubeOrigin(p, d.poleAxialLength), motor.tubeThickness,
                                       TubeLength(d.poleAxialLength, d.totalNumberPoles));
      assert Draw(tube, motor.tubeMaterial, TubeId, None, None, None, None)
          == TubeDraw(p, d, motor.tubeThickness, motor.tubeMaterial);
      assert StatorCalls() == poles + [TubeDraw(p, d, motor.tubeThickness, motor.tubeMaterial)];
      renderer.Receive(Draw(tube, motor.tubeMaterial, TubeId, None, None, None, None));
      assert poles[..n] == poles;
    }

    /** timeline: commutation, then one frame per sample. */
    method Timeline(trig: Trig, numberSamples: Value, phaseOffset: real) returns (r: Result<seq<Frame>>)
      ensures r == TimelineOf(trig, motor.circumference, motor.params.numberPoles, motor.params.dCurrents,
                              motor.params.qCurrents, numberSamples, phaseOffset)
    {
      var commutation := Commutation.ComputeCommutation(trig, VFloat(motor.circumference), VInt(motor.params.numberPoles / 2),
        VTuple([VFloat(motor.params.dCurrents), VFloat(motor.params.qCurrents)]), numberSamples, phaseOffset);
      if commutation.Err? {
        return Err(commutation.error);
      }
      var (stepSize, profile) := commutation.value;
      var motion := LinearMotion(stepSize, (PI / 2.0, 0.0, 0.0));
      var timeline := [];
      for i := 0 to |profile|
        invariant timeline == seq(i, j requires 0 <= j < i => TimelineFrame(stepSize, profile[j]))
      {
        var currents := Currents([profile[i].0, profile[i].1, profile[i].2], Phases);
        timeline := timeline + [Frame(Some(motion), None, VInt(SlotId), Some(currents))];
      }
      return Ok(timeline);
    }
  }

  /** The pole origins loop of _add_stator. */
  method PoleOrigins(polePitch: real, extraPairs: int, n: nat) returns (origins: seq<Point>)
    ensures |origins| == n
    ensures forall i :: 0 <= i < n ==> origins[i] == PoleOrigin(polePitch, extraPairs, i)
  {
    var offset := extraPairs as real * polePitch;
    origins := [];
    for pole := 0 to n
      invariant |origins| == pole
      invariant forall i :: 0 <= i < pole ==> origins[i] == PoleOrigin(polePitch, extraPairs, i)
    {
      assert (0.0, polePitch * pole as real - 2.0 * offset) == PoleOrigin(polePitch, extraPairs, pole);
      origins := origins + [(0.0, polePitch * pole as real - 2.0 * offset)];
    }
  }

  /** The slot origins loop of _add_armature. */
  method SlotOrigins(p: Parameters, slotPitch: real) returns (origins: seq<Point>)
    ensures |origins| == if p.numberSlots < 0 then 0 else p.numberSlots
    ensures forall i :: 0 <= i < |origins| ==>
      origins[i] == (p.slotInnerRadius, SlotZ(-slotPitch, p.slotAxialLength, p.slotAxialSpacing, i))
  {
    var n := if p.numberSlots < 0 then 0 else p.numberSlots;
    var z := -slotPitch;
    origins := [];
    for slot := 0 to n
      invariant |origins| == slot
      invariant forall i :: 0 <= i < slot ==>
        origins[i] == (p.slotInnerRadius, SlotZ(-slotPitch, p.slotAxialLength, p.slotAxialSpacing, i))
      invariant z == if slot == 0 then -slotPitch else SlotZ(-slotPitch, p.slotAxialLength, p.slotAxialSpacing, slot - 1)
    {
      if slot % 3 != 0 {
        z := z + (p.slotAxialLength + p.slotAxialSpacing);
      } else {
        z := z + p.slotAxialLength;
      }
      origins := origins + [(p.slotInnerRadius, z)];
    }
  }
}
