/** estimate_turns of blueshark/domain/generation/number_turns.py: how many
    turns of a wire fit in a rectangular slot. This copy accepts only fill
    factors strictly between 0 and 1. */
module GenerationTurns {
  import opened Wrappers
  import opened Numbers

  /** The default copper fill factor. */
  const DefaultFillFactor: real := 0.7

  /** ceil(length * height * fill / diameter**2): the least whole number of
      wire cross-sections (diameter squared) whose total area reaches the
      copper area of the slot. */
  function SlotTurns(length: real, height: real, wireDiameter: real, fillFactor: real): (r: int)
    requires wireDiameter > 0.0
    ensures (r - 1) as real * Sqr(wireDiameter) < length * height * fillFactor
    ensures length * height * fillFactor <= r as real * Sqr(wireDiameter)
  {
    SqrPositive(wireDiameter);
    CeilDiv(length * height * fillFactor, Sqr(wireDiameter));
    Ceil(length * height * fillFactor / Sqr(wireDiameter))
  }

  /** A positive copper area needs at least one turn. */
  lemma SlotTurnsPositive(length: real, height: real, wireDiameter: real, fillFactor: real)
    requires length > 0.0 && height > 0.0 && wireDiameter > 0.0 && fillFactor > 0.0
    ensures SlotTurns(length, height, wireDiameter, fillFactor) >= 1
  {
    MulPos(length, height);
    MulPos(length * height, fillFactor);
    SqrPositive(wireDiameter);
    var r := SlotTurns(length, height, wireDiameter, fillFactor);
    if r <= 0 {
      MulLe(r as real, 0.0, Sqr(wireDiameter));
      assert false;
    }
  }

  /** A thinner wire never gives fewer turns. */
  lemma ThinnerWireMoreTurns(length: real, height: real, d1: real, d2: real, fillFactor: real)
    requires length * height * fillFactor >= 0.0
    requires 0.0 < d1 <= d2
    ensures SlotTurns(length, height, d1, fillFactor) >= SlotTurns(length, height, d2, fillFactor)
  {
    var e := length * height * fillFactor;
    if d1 < d2 {
      SqrMonotone(d1, d2);
    }
    SqrPositive(d1);
    DivAntitone(e, Sqr(d1), Sqr(d2));
    CeilMonotone(e / Sqr(d2), e / Sqr(d1));
  }

  /** estimate_turns: non-positive dimensions and fill factors outside the
      open interval (0, 1) raise ValueError. */
  function EstimateTurns(length: real, height: real, wireDiameter: real,
                         fillFactor: real := DefaultFillFactor): (r: Result<int>)
    ensures r.Ok? <==> length > 0.0 && height > 0.0 && wireDiameter > 0.0 && 0.0 < fillFactor < 1.0
    ensures r.Err? ==> r.error == ValueError
    ensures r.Ok? ==> r.value >= 1 && r.value == SlotTurns(length, height, wireDiameter, fillFactor)
  {
    if length <= 0.0 || height <= 0.0 || wireDiameter <= 0.0 then Err(ValueError)
    else if fillFactor <= 0.0 || fillFactor >= 1.0 then Err(ValueError)
    else
      SlotTurnsPositive(length, height, wireDiameter, fillFactor);
      Ok(SlotTurns(length, height, wireDiameter, fillFactor))
  }

  /** A 5 x 6 slot with 0.315 wire at the default fill holds
      ceil(40000 / 189) = 212 turns. */
  lemma StandardCase()
    ensures EstimateTurns(5.0, 6.0, 0.315) == Ok(212)
  {
    assert Sqr(0.315) == 0.099225;
    assert 5.0 * 6.0 * 0.7 / 0.099225 == 40000.0 / 189.0;
  }

  /** 0.1 wire in a 10 x 10 slot gives more than 6000 turns. */
  lemma SmallWire()
    ensures EstimateTurns(10.0, 10.0, 0.1).Ok?
    ensures EstimateTurns(10.0, 10.0, 0.1).value > 6000
  {
    assert Sqr(0.1) == 0.01;
    assert 10.0 * 10.0 * 0.7 / 0.01 == 7000.0;
  }

  /** A fill factor of 0.1 in a 10 x 10 slot with unit wire gives 10 turns. */
  lemma MinimumFill()
    ensures EstimateTurns(10.0, 10.0, 1.0, 0.1) == Ok(10)
  {
    assert 10.0 * 10.0 * 0.1 / Sqr(1.0) == 10.0;
  }

  /** A completely filled slot is rejected, so the expected maximum of 100
      turns for a 10 x 10 slot with unit wire is never returned. */
  lemma FullFillRejected()
    ensures EstimateTurns(10.0, 10.0, 1.0, 1.0) == Err(ValueError)
  {
  }
}
