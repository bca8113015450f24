/** The renderer collaborator of the tubular motor and the quasi-transient
    loop (blueshark/renderer/renderer_interface.py). The FEMM renderers
    behind it are not modelled: the renderer here records, in order, every
    call it receives, so that the callers' contracts can state exactly which
    calls they make. */
module RendererLog {
  import opened Wrappers
  import opened Definitions
  import ConvertUnits
  import MaterialManager

  /** CoordinateSystem */
  datatype CoordinateSystem = AxiSymmetric | Planar | Spatial

  /** CircuitType */
  datatype CircuitType = Parallel | Series

  type Triple = (real, real, real)

  /** One call on the renderer, with its arguments. */
  datatype Call =
    | Setup(system: CoordinateSystem, units: ConvertUnits.Unit)
    | CreateCircuit(name: string, kind: CircuitType)
    | Draw(geometry: seq<(string, Value)>, material: MaterialManager.Material, group: int,
           circuit: Option<string>, turns: Option<int>, polarity: Option<Polarity>,
           magnetization: Option<int>)
    | MoveElement(elements: Value, magnitude: real, angles: Triple)
    | RotateElement(elements: Value, axis: Triple, angle: Triple)
    | ChangeCircuitCurrent(name: string, value: real)
    | CleanUp
    | Solve

  /** A renderer that keeps the calls it was given. `magnetic` says whether
      it is a MagneticRenderer. */
  class Recorder {
    const magnetic: bool
    var calls: seq<Call>

    constructor (magnetic: bool)
      ensures this.magnetic == magnetic && calls == []
    {
      this.magnetic := magnetic;
      calls := [];
    }

    /** Receive one call. */
    method Receive(c: Call)
      modifies this
      ensures calls == old(calls) + [c]
    {
      calls := calls + [c];
    }
  }
}
