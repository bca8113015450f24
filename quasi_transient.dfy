/** The quasi-transient frame loop of blueshark/simulate/quasi_transient.py.
    The renderer is a RendererLog.Recorder; the solve of one frame
    (static_simulation with the solver, the requested outputs, elements and
    circuits) is a parameter `solve` from the renderer's call history to a
    result or a failure, since the solved problem is whatever the renderer
    has been told so far. */
module QuasiTransient {
  import opened Wrappers
  import opened Definitions
  import opened RendererLog

  /** LinearMotion and RotationalMotion */
  datatype Motion =
    | LinearMotion(magnitude: real, angles: Triple)
    | RotationalMotion(axis: Triple, angle: Triple)

  /** VolumetricHeating: carried by a frame, not acted on by the loop. */
  datatype VolumetricHeating = VolumetricHeating(heating: seq<real>, materialName: seq<string>)

  datatype Currents = Currents(values: seq<real>, circuits: seq<string>)

  /** Frame: `elements` is whatever the caller passes on to the renderer
      (the tubular motor passes a single group id). */
  datatype Frame = Frame(motion: Option<Motion>, volumetric: Option<VolumetricHeating>,
                         elements: Value, currents: Option<Currents>)

  /** The renderer call that applies a frame's motion, if it has one. */
  function MotionCalls(frame: Frame): (r: seq<Call>)
    ensures frame.motion.None? <==> r == []
    ensures frame.motion.Some? && frame.motion.value.LinearMotion? ==>
      r == [MoveElement(frame.elements, frame.motion.value.magnitude, frame.motion.value.angles)]
    ensures frame.motion.Some? && frame.motion.value.RotationalMotion? ==>
      r == [RotateElement(frame.elements, frame.motion.value.axis, frame.motion.value.angle)]
  {
    match frame.motion
    case None => []
    case Some(LinearMotion(magnitude, angles)) => [MoveElement(frame.elements, magnitude, angles)]
    case Some(RotationalMotion(axis, angle)) => [RotateElement(frame.elements, axis, angle)]
  }

  /** The current changes _step_magnetic makes: value i goes to circuit i,
      until the values or the circuits run out. */
  function CurrentCalls(currents: Currents): (r: seq<Call>)
    ensures |r| <= |currents.values| && |r| <= |currents.circuits|
    ensures |r| == |currents.values| || |r| == |currents.circuits|
    ensures forall i :: 0 <= i < |r| ==> r[i] == ChangeCircuitCurrent(currents.circuits[i], currents.values[i])
  {
    var n := if |currents.values| <= |currents.circuits| then |currents.values| else |currents.circuits|;
    seq(n, i requires 0 <= i < n => ChangeCircuitCurrent(currents.circuits[i], currents.values[i]))
  }

  /** _step_magnetic raises IndexError when there are more values than
      circuits. */
  predicate CurrentsFail(currents: Currents) {
    |currents.values| > |currents.circuits|
  }

  /** The calls a frame makes before the renderer is cleaned up: its motion,
      then, for a magnetic renderer and a frame with currents, its current
      changes. */
  function FrameCalls(magnetic: bool, frame: Frame): seq<Call> {
    MotionCalls(frame) + (if magnetic && frame.currents.Some? then CurrentCalls(frame.currents.value) else [])
  }

  /** The frame fails before its solve. */
  predicate FrameFails(magnetic: bool, frame: Frame) {
    magnetic && frame.currents.Some? && CurrentsFail(frame.currents.value)
  }

  /** One frame's turn of the loop: what the frame gives (the solve's
      result, or IndexError when _step_magnetic raised) and the renderer's
      calls after it. */
  datatype Turn = Turn(result: Result<Value>, calls: seq<Call>)

  /** The try block for one frame, from the call history `history`: move,
      set the currents, clean up and solve; a frame that fails stops before
      the clean-up. */
  function FrameTurn(magnetic: bool, solve: seq<Call> -> Result<Value>, frame: Frame, history: seq<Call>): Turn {
    var moved := history + FrameCalls(magnetic, frame);
    if FrameFails(magnetic, frame) then Turn(Err(IndexError), moved)
    else
      var cleaned := moved + [CleanUp];
      Turn(solve(cleaned), cleaned + [Solve])
  }

  /** The outcome and the renderer's calls of the loop over frames[k..],
      frame k being step k + 1, starting from the call history `history`. */
  function Loop(magnetic: bool, solve: seq<Call> -> Result<Value>, frames: seq<Frame>, k: nat, history: seq<Call>)
    : (Result<seq<Value>>, seq<Call>)
    decreases |frames| - k
  {
    if k >= |frames| then (Ok([]), history)
    else
      var turn := FrameTurn(magnetic, solve, frames[k], history);
      if turn.result.Err? then (Err(FrameFailed(k + 1)), turn.calls)
      else Prepend([turn.result.value], Loop(magnetic, solve, frames, k + 1, turn.calls))
  }

  /** The results gathered before a run of the rest of the loop. */
  function Prepend(results: seq<Value>, run: (Result<seq<Value>>, seq<Call>)): (Result<seq<Value>>, seq<Call>) {
    (if run.0.Ok? then Ok(results + run.0.value) else run.0, run.1)
  }

  /** _step_magnetic */
  method StepMagnetic(renderer: Recorder, frame: Frame) returns (r: Outcome)
    modifies renderer
    ensures r.Fail? <==> frame.currents.Some? && CurrentsFail(frame.currents.value)
    ensures r.Fail? ==> r.error == IndexError
    ensures renderer.calls == old(renderer.calls) +
      (if frame.currents.Some? then CurrentCalls(frame.currents.value) else [])
  {
    if frame.currents.None? {
      return Pass;
    }
    var currents := frame.currents.value;
    for i := 0 to |currents.values|
      invariant i <= |currents.circuits|
      invariant renderer.calls == old(renderer.calls) +
        seq(i, j requires 0 <= j < i => ChangeCircuitCurrent(currents.circuits[j], currents.values[j]))
    {
      if i >= |currents.circuits| {
        assert CurrentCalls(currents) == seq(i, j requires 0 <= j < i => ChangeCircuitCurrent(currents.circuits[j], currents.values[j]));
        return Fail(IndexError);
      }
      renderer.Receive(ChangeCircuitCurrent(currents.circuits[i], currents.values[i]));
    }
    assert CurrentCalls(currents) == seq(|currents.values|, j requires 0 <= j < |currents.values| => ChangeCircuitCurrent(currents.circuits[j], currents.values[j]));
    return Pass;
  }

  /** The isinstance dispatch on the frame's motion. */
  method ApplyMotion(renderer: Recorder, frame: Frame)
    modifies renderer
    ensures renderer.calls == old(renderer.calls) + MotionCalls(frame)
  {
    match frame.motion {
      case Some(LinearMotion(magnitude, angles)) =>
        renderer.Receive(MoveElement(frame.elements, magnitude, angles));
      case Some(RotationalMotion(axis, angle)) =>
        renderer.Receive(RotateElement(frame.elements, axis, angle));
      case None =>
    }
  }

  /** Results gathered in two steps are the results gathered at once. */
  lemma PrependTwice(first: seq<Value>, second: seq<Value>, run: (Result<seq<Value>>, seq<Call>))
    ensures Prepend(first, Prepend(second, run)) == Prepend(first + second, run)
  {
    if run.0.Ok? {
      assert first + (second + run.0.value) == (first + second) + run.0.value;
    }
  }

  /** The body of the loop's try block for one frame: move, set the
      currents of a magnetic renderer, clean up and solve. A failure to set
      the currents stops the frame before the clean-up. */
  method RunFrame(renderer: Recorder, solve: seq<Call> -> Result<Value>, frame: Frame) returns (r: Result<Value>)
    modifies renderer
    ensures r == FrameTurn(renderer.magnetic, solve, frame, old(renderer.calls)).result
    ensures renderer.calls == FrameTurn(renderer.magnetic, solve, frame, old(renderer.calls)).calls
  {
    ApplyMotion(renderer, frame);
    if renderer.magnetic {
      var stepped := StepMagnetic(renderer, frame);
      if stepped.Fail? {
        assert renderer.calls == old(renderer.calls) + FrameCalls(renderer.magnetic, frame);
        return Err(stepped.error);
      }
    }
    assert renderer.calls == old(renderer.calls) + FrameCalls(renderer.magnetic, frame);
    renderer.Receive(CleanUp);
    r := solve(renderer.calls);
    renderer.Receive(Solve);
  }

  /** Frame k run as the loop's turn k: a failure ends the loop there, and
      a result is the first of the rest of the loop's. */
  method RunTurn(renderer: Recorder, solve: seq<Call> -> Result<Value>, frames: seq<Frame>, k: nat)
    returns (r: Result<Value>)
    requires k < |frames|
    modifies renderer
    ensures r.Err? ==>
      Loop(renderer.magnetic, solve, frames, k, old(renderer.calls)) == (Err(FrameFailed(k + 1)), renderer.calls)
    ensures r.Ok? ==>
      Loop(renderer.magnetic, solve, frames, k, old(renderer.calls))
        == Prepend([r.value], Loop(renderer.magnetic, solve, frames, k + 1, renderer.calls))
  {
    r := RunFrame(renderer, solve, frames[k]);
  }

  /** quasi_transient: any failure in a frame becomes
      RuntimeError("Failed at frame <step>"), the step counted from 1. */
  method Run(renderer: Recorder, solve: seq<Call> -> Result<Value>, frames: seq<Frame>) returns (r: Result<seq<Value>>)
    modifies renderer
    ensures (r, renderer.calls) == Loop(renderer.magnetic, solve, frames, 0, old(renderer.calls))
  {
    var results := [];
    ghost var whole := Loop(renderer.magnetic, solve, frames, 0, renderer.calls);
    assert Prepend([], whole) == whole by {
      if whole.0.Ok? {
        assert [] + whole.0.value == whole.0.value;
      }
    }
    for k := 0 to |frames|
      invariant Prepend(results, Loop(renderer.magnetic, solve, frames, k, renderer.calls)) == whole
    {
      var result := RunTurn(renderer, solve, frames, k);
      if result.Err? {
        return Err(FrameFailed(k + 1));
      }
      PrependTwice(results, [result.value], Loop(renderer.magnetic, solve, frames, k + 1, renderer.calls));
      results := results + [result.value];
    }
    assert results + [] == results;
    return Ok(results);
  }

  /** Every frame gives one result, in frame order, when the loop
      succeeds. */
  lemma {:induction false} LoopResults(magnetic: bool, solve: seq<Call> -> Result<Value>, frames: seq<Frame>,
                                       k: nat, history: seq<Call>)
    requires k <= |frames|
    ensures var run := Loop(magnetic, solve, frames, k, history);
      run.0.Ok? ==> |run.0.value| == |frames| - k
    decreases |frames| - k
  {
    if k < |frames| {
      var turn := FrameTurn(magnetic, solve, frames[k], history);
      if turn.result.Ok? {
        LoopResults(magnetic, solve, frames, k + 1, turn.calls);
      }
    }
  }

  /** A failure names a frame that was run, counted from 1. */
  lemma {:induction false} LoopFailure(magnetic: bool, solve: seq<Call> -> Result<Value>, frames: seq<Frame>,
                                       k: nat, history: seq<Call>)
    requires k <= |frames|
    ensures var run := Loop(magnetic, solve, frames, k, history);
      run.0.Err? ==> run.0.error.FrameFailed? && k < run.0.error.frame <= |frames|
    decreases |frames| - k
  {
    if k < |frames| {
      var turn := FrameTurn(magnetic, solve, frames[k], history);
      if turn.result.Ok? {
        LoopFailure(magnetic, solve, frames, k + 1, turn.calls);
      }
    }
  }

  /** The frame a failure names is the first that fails: no frame before
      it had more current values than circuits. */
  lemma {:induction false} LoopFirstFailure(magnetic: bool, solve: seq<Call> -> Result<Value>, frames: seq<Frame>,
                                            k: nat, history: seq<Call>)
    requires k <= |frames|
    ensures var run := Loop(magnetic, solve, frames, k, history);
      run.0.Err? && run.0.error.FrameFailed? ==>
        forall j :: k <= j < |frames| && j < run.0.error.frame - 1 ==> !FrameFails(magnetic, frames[j])
    decreases |frames| - k
  {
    if k < |frames| {
      var turn := FrameTurn(magnetic, solve, frames[k], history);
      if turn.result.Ok? {
        LoopFirstFailure(magnetic, solve, frames, k + 1, turn.calls);
      }
    }
  }

  /** A frame with more current values than circuits, on a magnetic
      renderer, makes the loop fail at that frame or earlier. */
  lemma {:induction false} LoopFailsBy(magnetic: bool, solve: seq<Call> -> Result<Value>, frames: seq<Frame>,
                                       k: nat, history: seq<Call>, j: nat)
    requires k <= j < |frames| && FrameFails(magnetic, frames[j])
    ensures Loop(magnetic, solve, frames, k, history).0.Err?
    ensures Loop(magnetic, solve, frames, k, history).0.error.FrameFailed? &&
      Loop(magnetic, solve, frames, k, history).0.error.frame <= j + 1
    decreases j - k
  {
    var turn := FrameTurn(magnetic, solve, frames[k], history);
    if k < j && turn.result.Ok? {
      LoopFailsBy(magnetic, solve, frames, k + 1, turn.calls, j);
    }
  }

  /** With a solver that never fails and no frame whose currents outnumber
      its circuits, the loop succeeds. */
  lemma {:induction false} LoopSucceeds(magnetic: bool, solve: seq<Call> -> Result<Value>, frames: seq<Frame>,
                                        k: nat, history: seq<Call>)
    requires forall h :: solve(h).Ok?
    requires forall j :: k <= j < |frames| ==> !FrameFails(magnetic, frames[j])
    ensures Loop(magnetic, solve, frames, k, history).0.Ok?
    decreases |frames| - k
  {
    if k < |frames| {
      var turn := FrameTurn(magnetic, solve, frames[k], history);
      LoopSucceeds(magnetic, solve, frames, k + 1, turn.calls);
    }
  }

  /** Each solve from position `from` on comes right after a clean_up. */
  predicate SolvesAfterCleanUp(calls: seq<Call>, from: nat) {
    forall i :: from <= i < |calls| && calls[i] == Solve ==> 0 < i && calls[i - 1] == CleanUp
  }

  /** No current is changed from position `from` on. */
  predicate NoCurrentChanges(calls: seq<Call>, from: nat) {
    forall i :: from <= i < |calls| ==> !calls[i].ChangeCircuitCurrent?
  }

  /** A frame's own calls hold no solve, and change no current unless the
      renderer is magnetic. */
  lemma FrameCallsKinds(magnetic: bool, frame: Frame)
    ensures forall i :: 0 <= i < |FrameCalls(magnetic, frame)| ==> FrameCalls(magnetic, frame)[i] != Solve
    ensures !magnetic ==> FrameCalls(magnetic, frame) == MotionCalls(frame)
  {
    var calls := FrameCalls(magnetic, frame);
    forall i | 0 <= i < |calls| ensures calls[i] != Solve {
      if i >= |MotionCalls(frame)| {
        assert calls[i] == CurrentCalls(frame.currents.value)[i - |MotionCalls(frame)|];
      }
    }
  }

  /** One frame's calls, appended to a history, keep both properties of
      that history. */
  lemma {:induction false} FrameStepKeeps(magnetic: bool, frame: Frame, history: seq<Call>, from: nat)
    requires SolvesAfterCleanUp(history, from)
    requires !magnetic ==> NoCurrentChanges(history, from)
    ensures SolvesAfterCleanUp(history + FrameCalls(magnetic, frame) + [CleanUp, Solve], from)
    ensures !magnetic ==> NoCurrentChanges(history + FrameCalls(magnetic, frame) + [CleanUp, Solve], from)
    ensures SolvesAfterCleanUp(history + FrameCalls(magnetic, frame), from)
    ensures !magnetic ==> NoCurrentChanges(history + FrameCalls(magnetic, frame), from)
  {
    FrameCallsKinds(magnetic, frame);
    var moved := history + FrameCalls(magnetic, frame);
    var solved := moved + [CleanUp, Solve];
    forall i | from <= i < |moved| ensures moved[i] == Solve ==> 0 < i && moved[i - 1] == CleanUp {
      if i >= |history| {
        assert moved[i] == FrameCalls(magnetic, frame)[i - |history|];
      } else {
        assert moved[i] == history[i];
        if 0 < i {
          assert moved[i - 1] == history[i - 1];
        }
      }
    }
    forall i | from <= i < |solved| && solved[i] == Solve ensures 0 < i && solved[i - 1] == CleanUp {
      if i < |moved| {
        assert solved[i] == moved[i] && solved[i - 1] == moved[i - 1];
      }
    }
    if !magnetic {
      forall i | from <= i < |moved| ensures !moved[i].ChangeCircuitCurrent? {
        if i >= |history| {
          assert moved[i] == MotionCalls(frame)[i - |history|];
        }
      }
      assert NoCurrentChanges(solved, from);
    }
  }

  /** One frame's turn keeps both properties of the history it starts
      from. */
  lemma FrameTurnKeeps(magnetic: bool, solve: seq<Call> -> Result<Value>, frame: Frame, history: seq<Call>, from: nat)
    requires SolvesAfterCleanUp(history, from)
    requires !magnetic ==> NoCurrentChanges(history, from)
    ensures SolvesAfterCleanUp(FrameTurn(magnetic, solve, frame, history).calls, from)
    ensures !magnetic ==> NoCurrentChanges(FrameTurn(magnetic, solve, frame, history).calls, from)
  {
    FrameStepKeeps(magnetic, frame, history, from);
    if !FrameFails(magnetic, frame) {
      assert FrameTurn(magnetic, solve, frame, history).calls
          == history + FrameCalls(magnetic, frame) + [CleanUp, Solve];
    }
  }

  /** The loop only appends to the renderer's history. */
  lemma {:induction false} LoopExtends(magnetic: bool, solve: seq<Call> -> Result<Value>, frames: seq<Frame>,
                                       k: nat, history: seq<Call>)
    ensures |history| <= |Loop(magnetic, solve, frames, k, history).1|
    ensures Loop(magnetic, solve, frames, k, history).1[..|history|] == history
    decreases |frames| - k
  {
    if k < |frames| {
      var turn := FrameTurn(magnetic, solve, frames[k], history);
      assert turn.calls[..|history|] == history;
      if turn.result.Ok? {
        var rest := Loop(magnetic, solve, frames, k + 1, turn.calls);
        LoopExtends(magnetic, solve, frames, k + 1, turn.calls);
        assert rest.1[..|history|] == rest.1[..|turn.calls|][..|history|];
      }
    }
  }

  /** Every solve the loop makes comes right after a clean_up, and a
      renderer that is not magnetic is never told to change a current. */
  lemma {:induction false} LoopCalls(magnetic: bool, solve: seq<Call> -> Result<Value>, frames: seq<Frame>,
                                     k: nat, history: seq<Call>, from: nat)
    requires SolvesAfterCleanUp(history, from)
    requires !magnetic ==> NoCurrentChanges(history, from)
    ensures SolvesAfterCleanUp(Loop(magnetic, solve, frames, k, history).1, from)
    ensures !magnetic ==> NoCurrentChanges(Loop(magnetic, solve, frames, k, history).1, from)
    decreases |frames| - k
  {
    if k < |frames| {
      FrameTurnKeeps(magnetic, solve, frames[k], history, from);
      var turn := FrameTurn(magnetic, solve, frames[k], history);
      if turn.result.Ok? {
        LoopCalls(magnetic, solve, frames, k + 1, turn.calls, from);
      }
    }
  }

  /** Frame k's own calls: it moves its elements as its motion says, then a
      magnetic renderer receives the frame's currents, value i for circuit
      i, and a renderer that is not magnetic receives nothing more. */
  lemma FrameCallsShape(magnetic: bool, frame: Frame)
    requires !FrameFails(magnetic, frame)
    ensures magnetic && frame.currents.Some? ==>
      |FrameCalls(magnetic, frame)| == |MotionCalls(frame)| + |frame.currents.value.values| &&
      forall i :: 0 <= i < |frame.currents.value.values| ==>
        FrameCalls(magnetic, frame)[|MotionCalls(frame)| + i]
          == ChangeCircuitCurrent(frame.currents.value.circuits[i], frame.currents.value.values[i])
    ensures !(magnetic && frame.currents.Some?) ==> FrameCalls(magnetic, frame) == MotionCalls(frame)
  {
  }

  /** A frame with two current values and one circuit fails at its own step
      number, after the first current was applied. */
  lemma TooFewCircuitsFails(solve: seq<Call> -> Result<Value>)
    ensures Loop(true, solve, [Frame(None, None, VInt(1), Some(Currents([1.0, 2.0], ["a"])))], 0, [])
         == (Err(FrameFailed(1)), [ChangeCircuitCurrent("a", 1.0)])
  {
    var frame := Frame(None, None, VInt(1), Some(Currents([1.0, 2.0], ["a"])));
    assert CurrentCalls(frame.currents.value) == [ChangeCircuitCurrent("a", 1.0)];
    assert MotionCalls(frame) == [];
    assert FrameCalls(true, frame) == [ChangeCircuitCurrent("a", 1.0)];
    assert FrameFails(true, frame);
  }
}
