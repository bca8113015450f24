/** estimate_turns of blueshark/models/tubular/physics/number_turns.py: the
    same slot formula, with a completely filled slot (fill factor 1)
    allowed. */
module TubularTurns {
  import opened Wrappers
  import opened Numbers
  import GenerationTurns

  /** estimate_turns: non-positive dimensions, and fill factors outside
      (0, 1], raise ValueError. */
  function EstimateTurns(length: real, height: real, wireDiameter: real,
                         fillFactor: real := GenerationTurns.DefaultFillFactor): (r: Result<int>)
    ensures r.Ok? <==> length > 0.0 && height > 0.0 && wireDiameter > 0.0 && 0.0 < fillFactor <= 1.0
    ensures r.Err? ==> r.error == ValueError
    ensures r.Ok? ==> r.value >= 1 && r.value == GenerationTurns.SlotTurns(length, height, wireDiameter, fillFactor)
  {
    if length <= 0.0 || height <= 0.0 || wireDiameter <= 0.0 then Err(ValueError)
    else if !(0.0 < fillFactor <= 1.0) then Err(ValueError)
    else
      GenerationTurns.SlotTurnsPositive(length, height, wireDiameter, fillFactor);
      Ok(GenerationTurns.SlotTurns(length, height, wireDiameter, fillFactor))
  }

  /** Both copies agree everywhere except at fill factor 1, which only
      this one accepts. */
  lemma AgreesWithGeneration(length: real, height: real, wireDiameter: real, fillFactor: real)
    ensures fillFactor != 1.0 ==>
      EstimateTurns(length, height, wireDiameter, fillFactor)
      == GenerationTurns.EstimateTurns(length, height, wireDiameter, fillFactor)
    ensures fillFactor == 1.0 ==>
      GenerationTurns.EstimateTurns(length, height, wireDiameter, fillFactor).Err?
  {
  }

  /** A full 10 x 10 slot with unit wire holds 100 turns. */
  lemma FullFill()
    ensures EstimateTurns(10.0, 10.0, 1.0, 1.0) == Ok(100)
  {
    assert 10.0 * 10.0 * 1.0 / Sqr(1.0) == 100.0;
  }

  /** A fill factor of 0.1 gives 10 turns. */
  lemma MinimumFill()
    ensures EstimateTurns(10.0, 10.0, 1.0, 0.1) == Ok(10)
  {
    assert 10.0 * 10.0 * 0.1 / Sqr(1.0) == 10.0;
  }

  /** 0.1 wire in a 10 x 10 slot gives more than 6000 turns. */
  lemma SmallWire()
    ensures EstimateTurns(10.0, 10.0, 0.1).Ok?
    ensures EstimateTurns(10.0, 10.0, 0.1).value > 6000
  {
    assert Sqr(0.1) == 0.01;
    assert 10.0 * 10.0 * 0.7 / 0.01 == 7000.0;
  }

  /** More copper never means fewer turns: the count grows with the fill
      factor. */
  lemma MoreFillMoreTurns(length: real, height: real, wireDiameter: real, f1: real, f2: real)
    requires EstimateTurns(length, height, wireDiameter, f1).Ok?
    requires EstimateTurns(length, height, wireDiameter, f2).Ok?
    requires f1 <= f2
    ensures EstimateTurns(length, height, wireDiameter, f1).value
         <= EstimateTurns(length, height, wireDiameter, f2).value
  {
    var w := Sqr(wireDiameter);
    SqrPositive(wireDiameter);
    MulPos(length, height);
    MulLe(f1, f2, length * height);
    assert length * height * f1 <= length * height * f2;
    CeilMonotone(length * height * f1 / w, length * height * f2 / w) by {
      DivMonotone(length * height * f1, length * height * f2, w);
    }
  }

  lemma DivMonotone(a: real, b: real, w: real)
    requires a <= b && w > 0.0
    ensures a / w <= b / w
  {
  }
}
