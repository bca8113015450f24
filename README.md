# BlueShark core, modelled in Dafny

BlueShark evaluates linear-motor designs with the FEMM finite-element
solver. This project models the parts of BlueShark that are ordinary
program logic around FEMM, and it proves what that logic promises:

- the shape layer: validating geometry dictionaries, and their area and
  centroid;
- the physics helpers: winding-turn estimates, unit conversion,
  volumetric heating, force and torque ripple, mechanical and electrical
  angles, the inverse Clarke transform and the commutation profile;
- the material manager, the FEMM material-name helpers and the two
  output selectors;
- the tubular motor's derived pitches, slot and pole layout, circuits
  and quasi-transient timeline;
- the voxel map of the visualiser, with Bresenham lines, scanline
  polygon filling and flood fill;
- the clean-up of traced point lists;
- the rows of the CSV output writer;
- the quasi-transient frame loop, run against a renderer that records
  every call it receives and a solver given as a parameter.

Floats are modelled as `real`. Rounding to `PRECISION` decimal places is
not modelled. `cos` and `sin` are parameters. Python's dynamic values
(`None`, numbers, strings, tuples, lists, insertion-ordered dicts, enum
members) are one datatype, `Definitions.Value`. Every exception the
source raises is a constructor of `Wrappers.Error`.

Each source file of the core is one module and one `.dfy` file. Classes
whose fields the source updates in place are Dafny classes:

- `MaterialManager.Manager`;
- `MagneticSelector.Selector` and `OutputSelector.Selector`;
- `TubularMotor.Motor` and `TubularMotor.MagneticPhysics`;
- `Visualize.Visualizer`;
- the recording renderer `RendererLog.Recorder`.

Loops become methods with loop invariants. Each such method is proved
against a function that specifies its result.

Shared modules:

- `Wrappers`: results and errors.
- `Numbers`: Python's float floor, ceil and `%`, and `PI`.
- `Definitions`: enums and Python values.
- `Dicts`: insertion-ordered dictionary writes, de-duplication, and `str.lower` on ASCII letters.
- `Builtins`: the Python built-ins the geometry code applies to its values: `len`, iteration, `v[i]`, unpacking into two names, and set hashing and equality.
- `Loops`: "a loop that stops at the first failure succeeds exactly when
  every element passes".
- `HybridPoints`: the vertex list of a hybrid shape.

## Model

| member | source | states |
|---|---|---|
| Validation.ValidatePolygon | blueshark/domain/geometry/validation.py:17-53 | passes exactly for a list of at least three numeric 2-tuples; every other input is a ValueError |
| Validation.ValidateCircle | blueshark/domain/geometry/validation.py:56-95 | passes exactly when the radius is a number > 0 and the center a numeric 2-tuple; otherwise ValueError |
| Validation.ValidateAnnulusCircle | blueshark/domain/geometry/validation.py:98-117 | passes exactly when both radii form valid circles with the center and r_outer > r_inner; otherwise ValueError |
| Validation.ValidateAnnulusSector | blueshark/domain/geometry/validation.py:120-173 | passes exactly for a valid annulus with numeric angles and end_angle > start_angle; otherwise ValueError |
| Validation.CheckEdges | blueshark/domain/geometry/validation.py:199-207 | passes exactly when every edge is a dict whose type is a Connector; on failure the first bad edge decides the error: AttributeError for a non-dict (`edge.get`), ValueError for a bad type |
| Validation.ValidateHybrid | blueshark/domain/geometry/validation.py:176-207 | edges missing or not a list is a ValueError; a list passes exactly when every edge is valid |
| Validation.ValidateShape | blueshark/domain/geometry/validation.py:210-262 | passes exactly for the well-formed geometries of each shape kind; an empty geometry or a missing "shape" key is a ValueError; a shape that is not a ShapeType is a NotImplementedError |
| Validation.ValidateShapeErrors | blueshark/domain/geometry/validation.py:210-262 | validation fails only with ValueError, AttributeError or NotImplementedError; the geometry is a value, so it is never modified |
| Validation.HybridEdgesNotAListRejected | blueshark/domain/geometry/validation.py:195-197 | a hybrid whose edges are the integer 420 is rejected with ValueError |
| Validation.PolygonPointsNotAListRejected | blueshark/domain/geometry/validation.py:29-32 | a polygon whose points are one tuple instead of a list is rejected with ValueError |
| Area.AreaOfPoints | blueshark/domain/geometry/area.py:29-40 | fails with ValueError exactly when fewer than three points are given; otherwise the area is non-negative |
| Area.PolygonArea | blueshark/domain/geometry/area.py:19-40 | a falsy value (None, an empty list) or fewer than three items is a ValueError, a value without len() a TypeError, a dictionary of three or more keys a KeyError; otherwise it succeeds exactly when every item unpacks to two numbers, with the shoelace area (never negative), and else raises the error of the first bad item |
| Area.ShoelaceSum | blueshark/domain/geometry/area.py:33-38 | the accumulating loop sums the cross term of every edge, the last edge closing the polygon |
| Area.AreaPolygon | blueshark/domain/geometry/area.py:19-40 | the guard plus the loop compute exactly `PolygonArea` |
| Area.CircleArea | blueshark/domain/geometry/area.py:43-55 | a missing radius is a ValueError; otherwise the area is PI·r², never negative |
| Area.SectorArea | blueshark/domain/geometry/area.py:58-83 | any missing radius or angle is a ValueError |
| Area.AnnulusArea | blueshark/domain/geometry/area.py:86-104 | a missing radius is a ValueError |
| Area.AreaOf | blueshark/domain/geometry/area.py:120-166 | an empty geometry or a missing "shape" is a ValueError; a shape that is not a ShapeType is a NotImplementedError |
| Area.CalculateArea | blueshark/domain/geometry/area.py:107-168 | the imperative dispatch, including the hybrid endpoint collection and de-duplication loops, computes exactly `AreaOf` |
| Area.PointListArea | blueshark/domain/geometry/area.py:158-163 | handing the de-duplicated hybrid vertices to `_area_polygon` as a list of tuples gives the area of those vertices |
| Area.ListArea | blueshark/domain/geometry/area.py:163 | a list whose items all unpack to two numbers has the polygon area of their points |
| Area.TriangleArea | unit_tests/domain/test_geometry.py:43-53 | the triangle (5,5), (3,4), (7,3) has area 3 |
| Area.RectangleArea | blueshark/domain/geometry/area.py:29-40 | an axis-aligned rectangle listed corner by corner has area \|w·h\| |
| Area.AnnulusIsDifferenceOfCircles | blueshark/domain/geometry/area.py:86-104 | the annulus area is the outer circle's area minus the inner circle's |
| Area.FullTurnSectorIsAnnulus | blueshark/domain/geometry/area.py:80-83 | a sector spanning 360 degrees has the area of the whole annulus |
| Area.ValidPointsHaveArea | blueshark/domain/geometry/area.py:19-40 | every point list that validation accepts has an area |
| Area.ValidCircleHasArea | blueshark/domain/geometry/area.py:43-55 | every circle that validation accepts has a positive area |
| Area.ValidAnnulusHasArea | blueshark/domain/geometry/area.py:86-104 | every annulus that validation accepts has a positive area |
| Area.ValidSectorHasArea | blueshark/domain/geometry/area.py:58-83 | every annulus sector that validation accepts has a positive area |
| Area.SectorFormulaPositive | blueshark/domain/geometry/area.py:81-82 | a positive span over radii 0 < r_inner < r_outer gives a positive area |
| Area.HybridArea | blueshark/domain/geometry/area.py:148-163 | a hybrid whose endpoints are all tuples of two numbers has the polygon area of its distinct endpoints, in first-seen order |
| Area.HybridSquareArea | unit_tests/domain/test_geometry.py:83-99 | the three-edge hybrid square of side 5 has area 25 |
| Area.SquareCornersArea | blueshark/domain/geometry/area.py:29-40 | the four corners of the side-5 square have area 25 |
| Area.SquareHybridVertices | blueshark/domain/geometry/area.py:148-161 | the square's edges give its six endpoint tuples, all numeric, which collapse to its four corners in first-seen order |
| Area.SquareHybridEnds | blueshark/domain/geometry/area.py:150-153 | the endpoint loop over the square's edges gives its six endpoint tuples |
| Area.SquareEndsPoints | blueshark/domain/geometry/area.py:156-161 | the six endpoint tuples are numeric pairs, standing for the square's corners with the shared ones repeated |
| Area.SquareEndpoints | blueshark/domain/geometry/area.py:150-153 | the endpoint list of the square's edges, two per edge, in edge order |
| Area.ThreeEdgeEndpoints | blueshark/domain/geometry/area.py:150-153 | three edges give their start and end points, in order |
| Area.SquareDedup | blueshark/domain/geometry/area.py:155-161 | de-duplicating the square's six endpoints keeps the first occurrence of each of the four corners |
| Centroid.CentroidOfPoints | blueshark/domain/geometry/graphical_centroid.py:22-57 | fails with ValueError exactly when the signed area is 0; otherwise each coordinate times 6·(signed area) equals that coordinate's weighted edge sum (the signed-area centroid formula) |
| Centroid.PolygonCentroidOf | blueshark/domain/geometry/graphical_centroid.py:22-57 | a value without len() is a TypeError, a non-empty dictionary a KeyError, a non-empty string a ValueError; it succeeds only when every item unpacks to two numbers, then with the signed-area centroid, and otherwise raises the error of the first bad item |
| Centroid.CentroidSums | blueshark/domain/geometry/graphical_centroid.py:37-43 | the single accumulating loop yields the shoelace sum and both weighted sums |
| Centroid.PolygonCentroid | blueshark/domain/geometry/graphical_centroid.py:22-57 | the loop plus the degenerate check compute exactly `PolygonCentroidOf` |
| Centroid.CircleCentroid | blueshark/domain/geometry/graphical_centroid.py:60-70 | the center itself, rounded item by item: any list or tuple of numbers, of any length, or an empty string or dictionary succeeds; a numeric pair gives its point; everything else is a TypeError |
| Centroid.Rounded | blueshark/domain/geometry/graphical_centroid.py:193 | rounding succeeds exactly when the coordinates are iterable and all numbers, one result per coordinate; otherwise TypeError |
| Centroid.AnnulusCentroid | blueshark/domain/geometry/graphical_centroid.py:89-92 | succeeds exactly for numeric radii and a list or tuple whose first two items are numbers (further items ignored), keeping x and raising y by (r_outer + r_inner)/2; non-numeric radii are a TypeError, a dictionary center a KeyError, a shorter list or string an IndexError |
| Centroid.Bisector | blueshark/domain/geometry/graphical_centroid.py:115-118 | the sector's bisector angle, reduced as the source does, lies in [0, 360) |
| Centroid.SectorCentroid | blueshark/domain/geometry/graphical_centroid.py:115-125 | succeeds exactly for numeric angles and radii and a center whose first two items are numbers; non-numeric angles or radii are a TypeError, a dictionary center a KeyError, an empty center an IndexError, a one-item center an IndexError or TypeError as center[0] is a number or not |
| Centroid.BisectorPeriodic | blueshark/domain/geometry/graphical_centroid.py:115-118 | turning either sector angle by whole turns leaves the bisector, and so the centroid, unchanged |
| Centroid.CentroidOf | blueshark/domain/geometry/graphical_centroid.py:145-193 | an empty geometry or a missing "shape" is a ValueError; a shape that is not a ShapeType is a NotImplementedError |
| Centroid.CentroidPoint | blueshark/domain/geometry/graphical_centroid.py:128-193 | the imperative dispatch, with the hybrid collection and de-duplication loops, computes exactly `CentroidOf` |
| Centroid.PointListCentroid | blueshark/domain/geometry/graphical_centroid.py:188 | handing points built from reals to `_polygon` as a list gives their centroid |
| Centroid.ListCentroid | blueshark/domain/geometry/graphical_centroid.py:188 | a list whose items all unpack to two numbers has the centroid of their points |
| Centroid.FewerThanThreeIsDegenerate | blueshark/domain/geometry/graphical_centroid.py:47-52 | fewer than three points enclose no area, so the centroid is a ValueError |
| Centroid.TriangleCentroid | blueshark/domain/geometry/graphical_centroid.py:22-57 | the centroid of any non-degenerate triangle is the mean of its three vertices |
| Centroid.TriangleWeights | blueshark/domain/geometry/graphical_centroid.py:37-43 | for a triangle, the weighted x sum is the vertex sum times the shoelace sum |
| Centroid.MeanFromWeights | blueshark/domain/geometry/graphical_centroid.py:54-55 | dividing such a weighted sum by 6·(signed area) gives the mean |
| Centroid.TriangleExample | unit_tests/domain/test_geometry.py:169-184 | the triangle (5,5), (3,4), (7,3) has centroid (5,4) |
| Centroid.HybridCentroid | blueshark/domain/geometry/graphical_centroid.py:173-188 | a hybrid whose endpoints are all tuples of two numbers has the polygon centroid of its distinct endpoints, in first-seen order, or the degenerate ValueError |
| Centroid.HybridSquareCentroid | unit_tests/domain/test_geometry.py:216-233 | the three-edge hybrid square of side 5 has centroid (2.5, 2.5) |
| Centroid.SquareCornersCentroid | blueshark/domain/geometry/graphical_centroid.py:22-57 | the four corners of the side-5 square have centroid (2.5, 2.5) |
| Centroid.RectangleCentroid | blueshark/domain/geometry/graphical_centroid.py:22-57 | an axis-aligned rectangle with non-zero sides has its centroid at its middle, (x + w/2, y + h/2) |
| Centroid.RectangleSums | blueshark/domain/geometry/graphical_centroid.py:37-43 | the three sums of the loop for a rectangle's four corners |
| Centroid.RectangleCx | blueshark/domain/geometry/graphical_centroid.py:42 | the rectangle's weighted x sum in terms of its four cross terms |
| Centroid.RectangleCy | blueshark/domain/geometry/graphical_centroid.py:43 | the rectangle's weighted y sum in terms of its four cross terms |
| Centroid.YTermIs | blueshark/domain/geometry/graphical_centroid.py:43 | one y weight is the sum of the two y coordinates times the edge's cross term |
| Centroid.RectangleWeights | blueshark/domain/geometry/graphical_centroid.py:37-43 | the polynomial identities that reduce the rectangle's weighted sums to its middle |
| HybridPoints.EdgeEndpoints | blueshark/domain/geometry/area.py:150-153 | collecting endpoints succeeds exactly when every edge can be subscripted with "start" and "end"; failures are TypeError or KeyError |
| HybridPoints.EdgeEndpointsAre | blueshark/domain/geometry/area.py:151-153 | the collected endpoints are each edge's start then end, edge by edge |
| HybridPoints.EdgeEndpointsPairs | blueshark/domain/geometry/area.py:151-153 | there are two endpoints per edge; endpoint 2i is edge i's start and 2i+1 its end |
| HybridPoints.ToPoints | blueshark/domain/geometry/area.py:35-38 | the loop succeeds exactly when every item unpacks to two numbers, giving their points in order; otherwise it raises the error of the first bad item |
| HybridPoints.Points | blueshark/domain/geometry/area.py:36-37 | items that are numeric pairs unpack to their points, one per item, in order |
| HybridPoints.FirstBad | blueshark/domain/geometry/area.py:35-37 | the position of the first item that is not a pair of two numbers, or the length when there is none |
| HybridPoints.BadPointError | blueshark/domain/geometry/area.py:36-38 | the loop's error at the first bad item: its unpacking error (TypeError if it is not iterable, ValueError if it does not yield two values), for item 0 also that of item 1, else TypeError from the arithmetic |
| HybridPoints.LoopErrorClear | blueshark/domain/geometry/area.py:35-38 | when every item is a pair of two numbers the loop raises nothing |
| HybridPoints.LoopErrorFirstBad | blueshark/domain/geometry/area.py:35-38 | the loop raises exactly the error of the first bad item |
| HybridPoints.ToPointsErrorClass | blueshark/domain/geometry/area.py:36-38 | items that are either numeric pairs or yield other than two values give a ValueError; items that all unpack into two values give a TypeError |
| HybridPoints.HybridEnds | blueshark/domain/geometry/area.py:150-153 | a hybrid without "edges" is a KeyError; a non-iterable edges value is a TypeError; otherwise the edges' endpoints in order |
| HybridPoints.HybridVerticesDistinct | blueshark/domain/geometry/area.py:155-161 | no two kept vertices are equal as set elements, and every endpoint equals a kept vertex |
| HybridPoints.DedupValues | blueshark/domain/geometry/area.py:155-161 | the `seen`/`unique_points` loop computes exactly the de-duplication by set equality, or TypeError at an unhashable point |
| HybridPoints.NumericDedup | blueshark/domain/geometry/area.py:155-161 | for tuples of two numbers, de-duplicating by set equality is de-duplicating their points |
| HybridPoints.NumericHybridVertices | blueshark/domain/geometry/area.py:148-161 | a hybrid whose endpoints are tuples of two numbers has as vertices its distinct endpoint points, in first-seen order |
| HybridPoints.HybridVertices | blueshark/domain/geometry/area.py:148-161 | a hybrid without "edges" is a KeyError and endpoint errors propagate; it succeeds exactly when every endpoint is hashable (a list or dictionary is a TypeError), giving the endpoints de-duplicated by set equality |
| HybridPoints.CollectHybridVertices | blueshark/domain/geometry/area.py:148-161 | the two loops of the hybrid branch compute exactly `HybridVertices` |
| Dicts.DedupNoDuplicates | blueshark/domain/geometry/area.py:155-161 | the de-duplicated list holds no element twice |
| Dicts.DedupSameElements | blueshark/domain/geometry/area.py:155-161 | the de-duplicated list holds exactly the elements of the input |
| Dicts.DedupPrefix | blueshark/domain/geometry/area.py:155-161 | elements keep the order of their first occurrence: de-duplicating a prefix of the input gives a prefix of the result |
| Dicts.DedupBy | blueshark/domain/geometry/area.py:155-161 | de-duplication by a key keeps only elements of the input |
| Dicts.DedupByDistinct | blueshark/domain/geometry/area.py:155-161 | the kept elements have pairwise distinct keys |
| Dicts.DedupByCovers | blueshark/domain/geometry/area.py:155-161 | every input element's key is the key of a kept element |
| Dicts.Keys | blueshark/solver/femm/magnetic/output_selector.py:96-103 | the keys of an insertion-ordered results dictionary, in order |
| Builtins.Iterate | blueshark/domain/geometry/area.py:151 | iteration succeeds exactly for a list, tuple, str (a Connectors member included) or dictionary: the items, the characters or the keys; otherwise TypeError |
| Builtins.Len | blueshark/domain/geometry/area.py:29 | len() succeeds exactly for what can be iterated, and counts what iteration yields |
| Builtins.Subscript | blueshark/domain/geometry/graphical_centroid.py:90-91 | `v[i]` is KeyError on a dictionary (its keys are strings), the i-th item or IndexError on a list, tuple or string, TypeError otherwise |
| Builtins.Unpack | blueshark/domain/geometry/area.py:36 | `x, y = v` needs an iterable (TypeError) yielding exactly two values (ValueError), which it returns |
| Builtins.NumericUnpack | blueshark/domain/geometry/area.py:36-38 | a value unpacks into two numbers exactly when it is a list or tuple of two numbers |
| Builtins.CanonicalPoint | blueshark/domain/geometry/area.py:156-161 | a tuple of two numbers is hashable and compares in a set as the point it stands for |
| Builtins.SamePointSameKey | blueshark/domain/geometry/area.py:159 | two numeric pair tuples are the same set element exactly when their points are equal |
| Builtins.Text | blueshark/solver/femm/magnetic/output_selector.py:64-65 | the characters of a str, and of a Connectors member its string value |
| PreprocessGeometry.CentroidPointIsPolygonCentroid | blueshark/femm_utils/preprocess/geometry.py:18-36 | the middle `get_centroid_point` gives, origin + (length/2, height/2), is the signed-area centroid of the rectangle's four corners whenever the rectangle has an area |
| PreprocessGeometry.OriginSeries | blueshark/femm_utils/preprocess/geometry.py:59-63 | exactly object_num origins (none for a count ≤ 0), origin i being (x_offset + i·x_pitch, y_offset + i·y_pitch) |
| PreprocessGeometry.OriginPoints | blueshark/femm_utils/preprocess/geometry.py:39-63 | the appending loop returns exactly `OriginSeries` |
| PreprocessGeometry.OriginSeriesStart | blueshark/femm_utils/preprocess/geometry.py:61 | the first origin is the offset |
| PreprocessGeometry.OriginSeriesDefault | blueshark/femm_utils/preprocess/geometry.py:43-44 | with the default offsets of 0.0 the row starts at (0, 0) |
| PreprocessGeometry.OriginSeriesSpacing | blueshark/femm_utils/preprocess/geometry.py:61 | consecutive origins differ by exactly (x_pitch, y_pitch) |
| PreprocessGeometry.OriginSeriesEmpty | blueshark/femm_utils/preprocess/geometry.py:59-63 | no objects give no origins |
| GenerationTurns.SlotTurns | blueshark/domain/generation/number_turns.py:45-50 | the turn count is the least whole number of wire cross-sections (diameter²) whose total reaches the copper area length·height·fill, i.e. ceil(length·height·fill/d²) |
| GenerationTurns.SlotTurnsPositive | blueshark/domain/generation/number_turns.py:45-50 | a positive copper area needs at least one turn |
| GenerationTurns.ThinnerWireMoreTurns | blueshark/domain/generation/number_turns.py:46-50 | a thinner wire never gives fewer turns |
| GenerationTurns.EstimateTurns | blueshark/domain/generation/number_turns.py:18-50 | succeeds exactly for positive dimensions and a fill factor strictly between 0 and 1, otherwise ValueError; the result is the slot formula and at least 1 |
| GenerationTurns.StandardCase | tests/unit_generation.py:21-23 | a 5 × 6 slot with 0.315 wire at the default fill 0.7 gives ceil(40000/189) = 212 |
| GenerationTurns.SmallWire | tests/unit_generation.py:39-40 | 0.1 wire in a 10 × 10 slot gives more than 6000 turns |
| GenerationTurns.MinimumFill | tests/unit_generation.py:42-47 | fill factor 0.1 in a 10 × 10 slot with unit wire gives 10 turns |
| GenerationTurns.FullFillRejected | blueshark/domain/generation/number_turns.py:42-43 | fill factor 1 is rejected with ValueError, although the test at tests/unit_generation.py:46 expects 100 |
| TubularTurns.EstimateTurns | blueshark/models/tubular/physics/number_turns.py:15-49 | succeeds exactly for positive dimensions and 0 < fill ≤ 1, otherwise ValueError; the result is the slot formula and at least 1 |
| TubularTurns.AgreesWithGeneration | blueshark/models/tubular/physics/number_turns.py:39-42 | the two copies of estimate_turns agree everywhere except at fill factor 1, which only the tubular copy accepts |
| TubularTurns.FullFill | unit_tests/modules/tubular/test_physics.py:149-153 | a completely filled 10 × 10 slot with unit wire gives 100 turns |
| TubularTurns.MinimumFill | unit_tests/modules/tubular/test_physics.py:149-154 | fill factor 0.1 gives 10 turns |
| TubularTurns.SmallWire | unit_tests/modules/tubular/test_physics.py:146-147 | 0.1 wire in a 10 × 10 slot gives more than 6000 turns |
| TubularTurns.MoreFillMoreTurns | blueshark/models/tubular/physics/number_turns.py:44-49 | more copper never means fewer turns: the count grows with the fill factor |
| ConvertUnits.ResolveKeys | blueshark/domain/physics/convert_units.py:20-27 | building the table resolves every key `Units.NAME` against the enum's declared names; it succeeds exactly when every key is declared (each key then resolves to a member of that name), otherwise AttributeError |
| ConvertUnits.IndexOf | blueshark/domain/physics/convert_units.py:20-27 | the member a declared name resolves to is the one declared under that name |
| ConvertUnits.TableFailsAsWritten | blueshark/domain/constants.py:37 | the enum declares MIRCOMETERS, so the table's key Units.MICROMETERS raises AttributeError when the class body runs |
| ConvertUnits.ResolveKeysStep | blueshark/domain/physics/convert_units.py:20-27 | resolving the keys one at a time, front to back |
| ConvertUnits.TableResolvesAsIntended | blueshark/domain/physics/convert_units.py:20-27 | with the enum name spelled MICROMETERS every key resolves and every member has a factor |
| ConvertUnits.KeysDeclared | blueshark/domain/physics/convert_units.py:20-27 | every table key names a member of the intended enum |
| ConvertUnits.NamesAreKeys | blueshark/domain/physics/convert_units.py:20-27 | every member of the intended enum is a table key |
| ConvertUnits.Factor | blueshark/domain/physics/convert_units.py:20-27 | every conversion factor is positive |
| ConvertUnits.ToMeters | blueshark/domain/physics/convert_units.py:29-44 | fails with ValueError exactly for a unit the table lacks; otherwise the value times the unit's factor |
| ConvertUnits.ToSquareMeters | blueshark/domain/physics/convert_units.py:46-61 | fails with ValueError exactly for a unit the table lacks |
| ConvertUnits.SquareIsLengthTwice | blueshark/domain/physics/convert_units.py:44-61 | converting an area equals converting a length twice |
| ConvertUnits.MeterIsIdentity | blueshark/domain/physics/convert_units.py:24 | meters and square meters are returned unchanged |
| ConvertUnits.ToMetersLinear | blueshark/domain/physics/convert_units.py:44 | conversion preserves sums and the strict order of values |
| ConvertUnits.MilIsThousandthInch | blueshark/domain/physics/convert_units.py:25-26 | 1000 mils convert to the same length as one inch |
| ConvertUnits.Examples | unit_tests/domain/test_physics.py:82-165 | 100000 µm is 0.1 m and 1000 cm is 10 m; 1000 µm² is 1e-9 m² and 1000 cm² is 0.1 m² |
| Thermal.VolumetricHeating | blueshark/domain/physics/thermal.py:16-41 | fails with ValueError exactly when the volume is below EPSILON; otherwise the heating times the volume is I²·R |
| Thermal.HeatingNonNegative | blueshark/domain/physics/thermal.py:40 | with R ≥ 0 and an accepted volume the heating is never negative |
| Thermal.DoubleCurrent | blueshark/domain/physics/thermal.py:40 | doubling the current quadruples the heating |
| Thermal.StandardProblem | unit_tests/domain/test_physics.py:225-239 | 10 A through 2 Ω in 10 m³ gives 20 W/m³ |
| Thermal.ZeroCurrent | unit_tests/domain/test_physics.py:241-255 | no current gives no heat |
| Thermal.NegativeVolume | unit_tests/domain/test_physics.py:257-270 | a negative volume is refused with ValueError |
| Ripple.Max | blueshark/domain/physics/ripple.py:31 | `max` is a sample and no sample exceeds it |
| Ripple.Min | blueshark/domain/physics/ripple.py:31 | `min` is a sample and no sample is below it |
| Ripple.Deviations | blueshark/domain/physics/ripple.py:30 | one deviation per sample |
| Ripple.ShiftExtremes | blueshark/domain/physics/ripple.py:29-31 | subtracting the average from every sample subtracts it from the maximum and the minimum |
| Ripple.PeakToPeakIsRange | blueshark/domain/physics/ripple.py:16-31 | the average cancels: the peak-to-peak ripple is the largest sample minus the smallest, so never negative |
| Ripple.ConstantHasNoRipple | tests/unit_physics.py:141-145 | a series of equal samples has no ripple |
| Ripple.EmptyHasNoRipple | blueshark/domain/physics/ripple.py:26-27 | an empty series gives 0.0 for both the peak-to-peak and the percentage ripple (also lines 64-65) |
| Ripple.OneToFive | tests/unit_physics.py:87-110 | the samples 1..5 have a peak-to-peak ripple of 4 and a percentage ripple of 400/3 |
| Ripple.OneToFiveExtremes | tests/unit_physics.py:89-93 | the samples 1..5 have maximum 5 and minimum 1 |
| Ripple.OneToFiveMean | tests/unit_physics.py:89-93 | the samples 1..5 have mean 3 |
| Ripple.ZeroAverage | blueshark/domain/physics/ripple.py:67-69 | a zero average gives 0 percent, whatever the spread |
| Ripple.PercentOfAverage | blueshark/domain/physics/ripple.py:71-72 | otherwise the percentage times the average is 100·(max − min) |
| Ripple.PercentTimesMean | blueshark/domain/physics/ripple.py:71-72 | the percentage times the average is 100 times the peak-to-peak ripple |
| Ripple.PercentDefinition | blueshark/domain/physics/ripple.py:71-72 | a non-empty series with a non-zero average gives (peak-to-peak/average)·100 |
| Ripple.ScaleBack | blueshark/domain/physics/ripple.py:72 | undoing the division by the average |
| Angles.MechanicalAngle | blueshark/models/tubular/physics/angles.py:16-36 | fails with ValueError exactly when the circumference is ≤ 0; otherwise the angle lies in [0, 2π) |
| Angles.ElectricalAngle | blueshark/models/tubular/physics/angles.py:39-58 | fails with ValueError exactly when the pole-pair count is ≤ 0; otherwise the angle lies in [0, 2π) |
| Angles.MechanicalPeriodic | blueshark/models/tubular/physics/angles.py:35-36 | moving by any whole number of circumferences leaves the mechanical angle unchanged |
| Angles.TurnArithmetic | blueshark/models/tubular/physics/angles.py:35 | k extra circumferences add k whole turns to the unreduced angle |
| Angles.ElectricalPeriodic | blueshark/models/tubular/physics/angles.py:58 | a whole mechanical turn leaves the electrical angle unchanged |
| Angles.ElectricalTurned | blueshark/models/tubular/physics/angles.py:58 | a whole mechanical turn adds one electrical turn per pole pair |
| Angles.FullCircumference | unit_tests/modules/tubular/test_physics.py:34-36 | a displacement of one circumference (10) is angle 0 again |
| Angles.OneAndAHalfCircumference | unit_tests/modules/tubular/test_physics.py:42-45 | with circumference 10, a displacement of 15 is half a turn, π |
| Angles.TwoPolePairsHalfTurn | unit_tests/modules/tubular/test_physics.py:66-67 | two pole pairs turn a mechanical half turn into electrical angle 0 |
| Transforms.InverseClarke | blueshark/models/tubular/physics/transforms.py:40-60 | phase a is alpha, the three phases sum to 0, and b − c is √3·beta |
| Transforms.InverseClarkeUnique | blueshark/models/tubular/physics/transforms.py:57-59 | those three equations have exactly one solution, so they characterise the transform |
| Transforms.InverseClarkeMirror | blueshark/models/tubular/physics/transforms.py:58-59 | reversing beta swaps phases b and c |
| Transforms.InverseClarkeAlphaOnly | unit_tests/modules/tubular/test_physics.py:84-89 | (1, 0) splits as (1, −0.5, −0.5) |
| Transforms.InverseParkAtZero | blueshark/models/tubular/physics/transforms.py:34-35 | where cos is 1 and sin is 0 the d-q currents pass through unchanged |
| Transforms.InverseParkKeepsMagnitude | blueshark/models/tubular/physics/transforms.py:34-35 | the rotation keeps the current's magnitude wherever cos² + sin² = 1 |
| Transforms.RotationIdentity | blueshark/models/tubular/physics/transforms.py:34-35 | the algebraic identity behind that |
| Commutation.CheckArguments | blueshark/models/tubular/physics/commutation.py:37-59 | passes exactly for a positive numeric circumference, a positive int pole-pair count, a tuple of two numbers as peak currents and a positive int sample count; a bad circumference is a ValueError and a TypeError comes only from the peak currents |
| Commutation.CommutationOf | blueshark/models/tubular/physics/commutation.py:19-75 | fails exactly when the argument checks fail, with their error |
| Commutation.ComputeCommutation | blueshark/models/tubular/physics/commutation.py:19-75 | the checks and the sampling loop compute exactly `CommutationOf` |
| Commutation.SampleLoop | blueshark/models/tubular/physics/commutation.py:61-75 | the loop yields num_samples + 1 entries, entry k being the phase currents at displacement k·step_size |
| Commutation.ProfileShape | blueshark/models/tubular/physics/commutation.py:61-75 | a valid call gives num_samples + 1 samples, and num_samples steps of step_size make one circumference |
| Commutation.SamplesBalanced | blueshark/models/tubular/physics/commutation.py:68-73 | every sample is a balanced set of three phase currents (they sum to 0) |
| Commutation.ProfileCloses | blueshark/models/tubular/physics/commutation.py:64-73 | the last sample equals the first: the profile ends one circumference after it began |
| Commutation.LastSampleAngle | blueshark/models/tubular/physics/commutation.py:61-65 | num_samples steps reach mechanical angle 0 again |
| Commutation.SameAngleSameSample | blueshark/models/tubular/physics/commutation.py:65-73 | samples at equal mechanical angles are equal |
| Commutation.TwoSamples | unit_tests/modules/tubular/test_physics.py:92-100 | circumference 1, one pole pair, peak (1, 0) and two samples give three entries 0.5 apart |
| Commutation.RejectedArguments | unit_tests/modules/tubular/test_physics.py:102-120 | a list or a one-tuple of peak currents is a TypeError; zero samples or a zero circumference is a ValueError |
| MaterialManager.PropTable.constructor | blueshark/domain/material_manager/manager.py:115-117 | a nested property table holds the entries it is given |
| MaterialManager.LibraryTablesCover | blueshark/domain/material_manager/manager.py:76-78 | every material's nested tables are among the library's tables, which a shallow copy shares |
| MaterialManager.LookupFrom | blueshark/domain/material_manager/manager.py:75-79 | the scan succeeds exactly when some material matches the lower-cased name and every earlier one has a name and does not match; the result is that first match; every failure is a KeyError |
| MaterialManager.LookupIgnoresCase | blueshark/domain/material_manager/manager.py:75-78 | two spellings of a name that lower-case alike find the same material, which carries the requested name up to case and precedes every other match |
| MaterialManager.UnknownNameRaisesKeyError | blueshark/domain/material_manager/manager.py:79 | a name no material carries raises KeyError |
| MaterialManager.ApplyParameter | blueshark/domain/material_manager/manager.py:81-141 | fails exactly when the tag's checks fail (magnet: missing grade ValueError, non-string grade TypeError, unknown grade ValueError; wire: missing diameter ValueError, non-numeric TypeError; other non-empty tag ValueError), writing nothing then; otherwise a magnet's grade properties are copied into its "magnetic" table and a wire's diameter into its "physical" table |
| MaterialManager.CopyProps | blueshark/domain/material_manager/manager.py:116-117 | the copying loop sets every grade property in order |
| MaterialManager.WireDiameterAccepted | unit_tests/domain/test_material_manager.py:76-98 | a wire given a numeric wire_diameter passes |
| MaterialManager.WireWithoutDiameterRejected | unit_tests/domain/test_material_manager.py:166-184 | a wire given only an unrelated parameter is rejected with ValueError |
| MaterialManager.MagnetWithoutGradeRejected | unit_tests/domain/test_material_manager.py:148-164 | a magnet requested without a grade is rejected with ValueError |
| MaterialManager.UnknownTagRejected | unit_tests/domain/test_material_manager.py:132-146 | an unknown tag is rejected with ValueError |
| MaterialManager.MagnetGradeApplied | unit_tests/domain/test_material_manager.py:100-130 | grade N35 passes and its coercivity 905659 and remanence 1.104 overwrite the magnetic table's values |
| MaterialManager.N35Props | unit_tests/domain/test_material_manager.py:100-130 | the properties grade N35 copies |
| MaterialManager.UntaggedTakesAnything | blueshark/domain/material_manager/manager.py:94 | a material without a tag accepts any parameters (also lines 134-136) |
| MaterialManager.TrackedKeepsFirstUseOrder | blueshark/domain/material_manager/manager.py:143-146 | recording a use keeps each name once, keeps earlier names in first-use order, and leaves the name recorded |
| MaterialManager.Manager.constructor | blueshark/domain/material_manager/manager.py:25-42 | a new manager holds the loaded library and no used materials |
| MaterialManager.Manager.LookupMaterial | blueshark/domain/material_manager/manager.py:68-79 | the loop returns exactly `Lookup`: the first case-insensitive match or KeyError |
| MaterialManager.Manager.TrackUsage | blueshark/domain/material_manager/manager.py:143-146 | the name is appended only when not yet recorded; names stay distinct |
| MaterialManager.Manager.UseMaterial | blueshark/domain/material_manager/manager.py:44-66 | fails exactly when the lookup (KeyError) or the parameter check fails, recording nothing and changing no table; on success the use is recorded, the returned material is the library's match, whose shared nested table carries the write, and every other table of the library is unchanged |
| FemmMaterials.NameFrom | blueshark/femm_utils/preprocesses/materials.py:36-40 | a name offered by a material is never the empty string |
| FemmMaterials.NamesOfMembers | blueshark/femm_utils/preprocesses/materials.py:34-41 | a name is among the extracted names exactly when some material offers it |
| FemmMaterials.BlockNameFirst | blueshark/femm_utils/preprocesses/materials.py:36-40 | a non-empty BlockName is the name a material offers, whatever its other keys |
| FemmMaterials.EmptyBlockNameSkipped | blueshark/femm_utils/preprocesses/materials.py:38 | an empty BlockName does not count, so a later "name" is offered |
| FemmMaterials.ExtractMaterialNames | blueshark/femm_utils/preprocesses/materials.py:22-41 | the nested loops, the inner one stopping at the first non-empty string, collect exactly the names the materials offer, as a set without duplicates |
| FemmMaterials.AddFemmMaterial | blueshark/femm_utils/preprocesses/materials.py:143-166 | a name no material offers is a ValueError raised before FEMM is asked for anything; otherwise FEMM is asked for exactly that name |
| FemmMaterials.FriendlyFrom | blueshark/femm_utils/preprocesses/materials.py:70-73 | the search finds a friendly key whose FEMM key is the given key, and finds none exactly when no entry has that FEMM key |
| FemmMaterials.NormalKeyIsFriendlyOrName | blueshark/femm_utils/preprocesses/materials.py:65-76 | every key the normalised dictionary uses is a friendly key or "name" |
| FemmMaterials.NormalizeEntries | blueshark/femm_utils/preprocesses/materials.py:65-86 | the only failure of the key loop is ValueError |
| FemmMaterials.NormalizeEntriesAll | blueshark/femm_utils/preprocesses/materials.py:65-86 | the key loop succeeds exactly when every key, in order, can be normalised |
| FemmMaterials.NormalizeEntriesOk | blueshark/femm_utils/preprocesses/materials.py:77-86 | the key loop succeeds exactly when every input key maps to a friendly key or "name" |
| FemmMaterials.NormalizeKeyKept | blueshark/femm_utils/preprocesses/materials.py:65-76 | every input key's normal form is a key of the result |
| FemmMaterials.NormalizeKeySource | blueshark/femm_utils/preprocesses/materials.py:65-76 | every key of the result is the normal form of some input key |
| FemmMaterials.NormalizeEntriesKeys | blueshark/femm_utils/preprocesses/materials.py:65-76 | the result's keys are exactly the normal forms of the input keys |
| FemmMaterials.NormalizeEntriesValues | blueshark/femm_utils/preprocesses/materials.py:65-76 | each value survives under its key's normal form unless a later key maps to the same normal form |
| FemmMaterials.DefaultsNeverOverride | blueshark/femm_utils/preprocesses/materials.py:88-89 | defaults only fill missing keys: a present key keeps its value, a missing one takes its default |
| FemmMaterials.Normalize | blueshark/femm_utils/preprocesses/materials.py:44-91 | succeeds exactly for a dictionary whose every key can be normalised; every failure is a ValueError |
| FemmMaterials.NormalizedKeys | blueshark/femm_utils/preprocesses/materials.py:63-91 | the normalised dictionary holds exactly the normalised input keys and the default keys |
| FemmMaterials.KeyMapExamples | blueshark/femm_utils/preprocesses/materials.py:65-86 | with the table mu_x → Mu_x, both "MU_X" and "Mu_x" become "mu_x", "BlockName" becomes "name" and "colour" is refused |
| FemmMaterials.NormalizeMaterialInput | blueshark/femm_utils/preprocesses/materials.py:44-91 | the key loop with its for-else and the defaults loop compute exactly `Normalize` |
| FemmMaterials.FindFriendly | blueshark/femm_utils/preprocesses/materials.py:70-73 | the inner loop returns exactly `FriendlyFrom` |
| FemmMaterials.NonDictRejected | blueshark/femm_utils/preprocesses/materials.py:60-61 | a list instead of a dictionary is a ValueError |
| MagneticSelector.RunnerOfMatchesTable | blueshark/solver/femm/magnetic/output_selector.py:49-62 | the four force and torque outputs run per element and the six circuit outputs per circuit, as the table registers them |
| MagneticSelector.LowerAll | blueshark/solver/femm/magnetic/output_selector.py:70 | the requested names lower-cased one by one, in order |
| MagneticSelector.Selection | blueshark/solver/femm/magnetic/output_selector.py:64-78 | a str (a Connectors member included) selects every output when it is "all" in any case and leaves outputs unset otherwise; anything else must be iterable (TypeError) with str items (AttributeError), and is accepted exactly when every lower-cased name is available, selecting those names in order |
| MagneticSelector.Keyed | blueshark/solver/femm/magnetic/output_selector.py:128-153 | the runner's dictionary holds each subject once, in first-occurrence order, mapped to its measurement |
| MagneticSelector.Run | blueshark/solver/femm/magnetic/output_selector.py:105-153 | a runner fails exactly when its subject is missing or falsy (ValueError) or one of the subjects it iterates cannot be a dictionary key (TypeError) |
| MagneticSelector.RunKeysAreSubjects | blueshark/solver/femm/magnetic/output_selector.py:125-128 | a non-empty list runs exactly when every subject in it can be a key, and then a subject is a key of the result, holding its own measurement, exactly when it is listed |
| MagneticSelector.UnhashableSubjectsRejected | blueshark/solver/femm/magnetic/output_selector.py:125-128 | a non-empty dictionary, or a list holding a list, is truthy but cannot be a key, so the runner raises TypeError |
| MagneticSelector.ScalarSubjectWrapped | blueshark/solver/femm/magnetic/output_selector.py:125-126 | a single element id is measured as a one-element list |
| MagneticSelector.FalsySubjectsRejected | blueshark/solver/femm/magnetic/output_selector.py:120-123 | element id 0 on its own, an empty list and None are all refused with ValueError |
| MagneticSelector.ComputeOver | blueshark/solver/femm/magnetic/output_selector.py:96-103 | compute's loop fails only with a runner's ValueError or TypeError |
| MagneticSelector.ComputeAll | blueshark/solver/femm/magnetic/output_selector.py:99-101 | compute succeeds exactly when every selected output, in order, finds a subject its runner accepts |
| MagneticSelector.ComputeSucceeds | blueshark/solver/femm/magnetic/output_selector.py:99-101 | compute succeeds exactly when every selected output's subject is present, not falsy, and made of subjects that can be dictionary keys |
| MagneticSelector.ComputeKeys | blueshark/solver/femm/magnetic/output_selector.py:96-103 | the result's keys are exactly the selected outputs, each once, in selection order |
| MagneticSelector.ComputeValues | blueshark/solver/femm/magnetic/output_selector.py:100-101 | each key holds its own runner's result on the subject its runner uses |
| MagneticSelector.Selector.constructor | blueshark/solver/femm/magnetic/output_selector.py:64-78 | a selector holds the selection it is given |
| MagneticSelector.Selector.New | blueshark/solver/femm/magnetic/output_selector.py:38-78 | __init__ fails exactly when the selection fails, with its error; otherwise the new selector holds the selection |
| MagneticSelector.Selector.Compute | blueshark/solver/femm/magnetic/output_selector.py:80-103 | without a selection reading self.outputs is an AttributeError; otherwise the loop computes exactly `ComputeOver` |
| MagneticSelector.ComputeTurn | blueshark/solver/femm/magnetic/output_selector.py:99-101 | one turn of the loop, after the earlier turns succeeded |
| MagneticSelector.ComputeErrSticks | blueshark/solver/femm/magnetic/output_selector.py:99-101 | once an output has raised, the outputs after it are not run and the computation raises that error |
| MagneticSelector.ComputeStops | blueshark/solver/femm/magnetic/output_selector.py:96-153 | the first selected output whose subject its runner refuses makes the whole computation raise that runner's error: ValueError for a missing subject, TypeError for one that cannot be a key |
| MagneticSelector.AllInAnyCase | blueshark/solver/femm/magnetic/output_selector.py:64-66 | "ALL" selects every output; "force" leaves the selection unset |
| MagneticSelector.ListSelections | blueshark/solver/femm/magnetic/output_selector.py:68-78 | ["Force_Lorentz"] selects ["force_lorentz"]; ["flux"] is a ValueError |
| OutputSelector.Run | blueshark/output/selector.py:88-138 | a runner fails with ValueError exactly when its subject key ("group" for the force and torque outputs, "phaseName" for the phase outputs) is missing or None |
| OutputSelector.RunResults | blueshark/output/selector.py:109-138 | a list or tuple of subjects is measured element by element, in order; any other subject is measured once |
| OutputSelector.Selection | blueshark/output/selector.py:61-70 | the requested names are accepted exactly when every one is available, kept as given (case included); otherwise ValueError |
| OutputSelector.ComputeOver | blueshark/output/selector.py:82-86 | the only failure of compute's loop is ValueError |
| OutputSelector.ComputeAllFound | blueshark/output/selector.py:83-85 | compute succeeds exactly when every requested output, in order, finds its subject |
| OutputSelector.ComputeSucceeds | blueshark/output/selector.py:83-85 | compute succeeds exactly when each requested output's subject key is present and not None |
| OutputSelector.ComputeKeys | blueshark/output/selector.py:82-86 | the result's keys are exactly the requested outputs |
| OutputSelector.ComputeValues | blueshark/output/selector.py:84-85 | each key holds its own runner's results |
| OutputSelector.ComputeStops | blueshark/output/selector.py:103-133 | one requested output without its subject makes the whole computation a ValueError |
| OutputSelector.Selector.constructor | blueshark/output/selector.py:70 | a selector holds the names it is given |
| OutputSelector.Selector.New | blueshark/output/selector.py:36-70 | __init__ fails with ValueError exactly when the selection does; otherwise the new selector holds the requested names |
| OutputSelector.Selector.Compute | blueshark/output/selector.py:72-86 | the loop computes exactly `ComputeOver` over the selector's names |
| OutputSelector.CaseSensitive | blueshark/output/selector.py:61-68 | "Force_Lorentz" is unknown; ["force_lorentz", "phase_power"] is accepted as given |
| OutputSelector.GroupExamples | blueshark/output/selector.py:103-112 | a group list gives one result per group in order; a single group gives one result; a phase output without "phaseName" is a ValueError |
| TubularMotor.RectangleGeometryIsRectangle | blueshark/models/tubular/motor.py:88-107 | the rectangle drawn from a bottom-left corner is a valid shape of area abs(width × height) whose centroid, when it has an area, is its centre |
| TubularMotor.GeometryOf | blueshark/models/tubular/motor.py:109-122 | computing the geometry fails with ZeroDivisionError exactly when there are no poles |
| TubularMotor.GeometryPitches | blueshark/models/tubular/motor.py:114-122 | the circumference is one slot pitch per slot and one pole pitch per pole; each pole is as long as its pitch, whatever length was asked for; the extra pairs add four poles each |
| TubularMotor.SlotZClosedForm | blueshark/models/tubular/motor.py:267-280 | slot i sits at i × length + (i − i div 3 − 1) × spacing: spaced apart within each group of three slots, touching across groups |
| TubularMotor.SlotGap | blueshark/models/tubular/motor.py:271-277 | the gap before a slot is the spacing, or nothing when its index is a multiple of three; with a non-negative spacing slots never overlap |
| TubularMotor.SlotPattern | blueshark/models/tubular/motor.py:290-298 | slots are wound a+, b−, c+, a−, b+, c− and then repeat; three slots on, the phase is the same and the polarity reversed |
| TubularMotor.PolesTileTube | blueshark/models/tubular/motor.py:322-355 | the first pole starts where the tube starts, each pole starts where the one before ends, the last ends where the tube ends, and magnetization alternates |
| TubularMotor.TimelineOf | blueshark/models/tubular/motor.py:221-258 | the timeline fails exactly when the commutation it asks for fails |
| TubularMotor.TimelineShape | blueshark/models/tubular/motor.py:229-258 | one frame per commutation sample, each moving the slot group by one step along the axis and carrying three currents for phases a, b, c |
| TubularMotor.TimelineNeedsAPolePair | blueshark/models/tubular/motor.py:231 | fewer than two poles means no pole pair, and the timeline raises ValueError |
| TubularMotor.TimelineRuns | blueshark/models/tubular/motor.py:221-258 | with a solver that never fails, the quasi-transient loop gives one result per timeline frame |
| TubularMotor.Motor.constructor | blueshark/models/tubular/motor.py:45-60 | the motor keeps the parameters, the resolved materials and the derived thicknesses (also lines 194-197) |
| TubularMotor.Motor.ComputeGeometry | blueshark/models/tubular/motor.py:109-122 | the slot pitch and circumference are written before the division by the number of poles can fail; on success the fields are the computed geometry |
| TubularMotor.Motor.New | blueshark/models/tubular/motor.py:45-68 | construction fails with ZeroDivisionError without poles and with TypeError for a renderer that is not magnetic; otherwise the motor is valid and carries its magnetic physics |
| TubularMotor.Motor.Setup | blueshark/models/tubular/motor.py:70-77 | the renderer is set up axi-symmetric in millimetres, then circuits, stator and armature are drawn in that order |
| TubularMotor.MagneticPhysics.constructor | blueshark/models/tubular/motor.py:209-211 | the physics keeps its motor and the motor's renderer |
| TubularMotor.MagneticPhysics.Setup | blueshark/models/tubular/motor.py:213-219 | circuits, then stator, then armature; the outcome is the armature's |
| TubularMotor.MagneticPhysics.CreateCircuits | blueshark/models/tubular/motor.py:368-376 | one series circuit per phase, in order |
| TubularMotor.MagneticPhysics.AddArmature | blueshark/models/tubular/motor.py:260-314 | when the turn estimate fails nothing is drawn; otherwise one draw per slot, in order, at its origin, with its phase, polarity and turns |
| TubularMotor.MagneticPhysics.AddStator | blueshark/models/tubular/motor.py:316-366 | one draw per pole, in order, then the tube |
| TubularMotor.MagneticPhysics.Timeline | blueshark/models/tubular/motor.py:221-258 | the loop builds exactly `TimelineOf` for the motor's circumference, poles and currents |
| TubularMotor.PoleOrigins | blueshark/models/tubular/motor.py:323-328 | the loop's origins are exactly pole i at pitch × i minus two extra pairs' worth of pitches |
| TubularMotor.SlotOrigins | blueshark/models/tubular/motor.py:267-280 | the loop's origins are exactly slot i at the inner radius and `SlotZ` |
| Visualize.ShiftOf | blueshark/visualization/renderer.py:53-61 | a planar problem is shifted by half the window (floor division), an axi-symmetric one not at all |
| Visualize.PyIndex | blueshark/visualization/renderer.py:216-235 | Python list indexing: an index is accepted exactly when it lies in [−length, length), a negative one counting from the end; otherwise IndexError |
| Visualize.AssignAsWritten | blueshark/visualization/renderer.py:214-216 | the assignment as written keeps the number of rows |
| Visualize.SetPointWrapsAsWritten | blueshark/visualization/renderer.py:214-216 | as written, the point (−1, 0) on an unshifted 2 × 2 map is written into the last column of row 0 instead of being refused |
| Visualize.FillStartWrapsAsWritten | blueshark/visualization/renderer.py:231-238 | as written, the centroid (−1, 0) on an unshifted 2 × 2 map starts the fill at the last cell of row 0 |
| Visualize.BlankMap | blueshark/visualization/renderer.py:70-75 | rows × columns cells, every one the given index |
| Visualize.SetCell | blueshark/visualization/renderer.py:245 | exactly one cell changes, to the given value |
| Visualize.ConnectedStart | blueshark/visualization/renderer.py:240 | the start cell belongs to its own region |
| Visualize.ConnectedExtend | blueshark/visualization/renderer.py:247-255 | a region cell's neighbour of the region's material belongs to the region |
| Visualize.ConnectedHolds | blueshark/visualization/renderer.py:244 | every region cell holds the region's material |
| Visualize.RegionHoldsStart | blueshark/visualization/renderer.py:234-236 | every cell of the start's region holds the start's value, so returning early changes nothing the fill would |
| Visualize.Neighbours | blueshark/visualization/renderer.py:247-255 | the cells pushed are exactly the in-map cells sharing a side with the popped one |
| Visualize.FloodStart | blueshark/visualization/renderer.py:238-240 | the fill's invariant holds with only the start stacked |
| Visualize.SkipStep | blueshark/visualization/renderer.py:243-244 | popping a cell that was already recoloured keeps the invariant |
| Visualize.RecolourChanged | blueshark/visualization/renderer.py:245 | recolouring a region cell changes only region cells |
| Visualize.RecolourStack | blueshark/visualization/renderer.py:247-255 | every stacked cell is the start or a neighbour of a region cell |
| Visualize.RecolourClosed | blueshark/visualization/renderer.py:245-255 | every recoloured cell's pending neighbours are on the stack |
| Visualize.PoppedConnected | blueshark/visualization/renderer.py:243-244 | a popped cell still of the original material belongs to the region |
| Visualize.RecolourShape | blueshark/visualization/renderer.py:245-255 | recolouring and pushing keeps both maps the same shape |
| Visualize.RecolourStep | blueshark/visualization/renderer.py:243-255 | recolouring the popped cell and pushing its neighbours keeps the invariant and shrinks the set of cells left to recolour |
| Visualize.RegionRecoloured | blueshark/visualization/renderer.py:242-255 | once the stack is empty, every cell on a path of the region from the start is recoloured |
| Visualize.FloodDone | blueshark/visualization/renderer.py:242 | when the stack is empty, every region cell holds the material |
| Visualize.Filled | blueshark/visualization/renderer.py:218-255 | after the fill, the start's 4-connected region holds the material and every other cell keeps its value |
| Visualize.FillFrom | blueshark/visualization/renderer.py:234-255 | the fill from an in-map start, early return included, yields exactly `Filled` |
| Visualize.Flood | blueshark/visualization/renderer.py:238-255 | the depth-first loop recolours exactly the start's region and leaves every other cell alone |
| Visualize.FloodKeepsOtherMaterials | blueshark/visualization/renderer.py:238-255 | the fill recolours its start and never changes a cell of another material |
| Visualize.HasAmbientNeighbour | blueshark/visualization/renderer.py:186-193 | the neighbour loop answers exactly whether one of the four in-map neighbours holds the ambient index |
| Visualize.VoxelIndex | blueshark/visualization/renderer.py:179-182 | the voxel index is within one half of the scaled, shifted coordinate |
| Visualize.BoundaryPointsMembers | blueshark/visualization/renderer.py:176-198 | the kept points are exactly the connector's points that are in the map and next to the ambient material, in order; when all pass, all are kept |
| Visualize.OutsidePointDropped | blueshark/visualization/renderer.py:185 | a point whose voxel column lies outside the map is never kept |
| Visualize.FilterPoints | blueshark/visualization/renderer.py:176-196 | the loop over a connector's points keeps exactly `BoundaryPoints` |
| Visualize.BoundaryOf | blueshark/visualization/renderer.py:157-200 | an empty map raises IndexError and an unknown ambient material KeyError; otherwise every connector keeps its place with its kept points |
| Visualize.WithMaterial | blueshark/visualization/renderer.py:88-89 | a material seen for the first time gets the next index; known materials keep theirs and no other name is added |
| Visualize.WithMaterialIndexed | blueshark/visualization/renderer.py:60-89 | registering a material keeps the indices 0 … n−1, each used once, so a new material never shares an index |
| Visualize.AmbientIndexed | blueshark/visualization/renderer.py:60 | the ambient material alone, at index 0, is indexed |
| Visualize.Visualizer.constructor | blueshark/visualization/renderer.py:39-61 | the window is the size times the scale, the ambient material has index 0, the shift is `ShiftOf`, and the map is empty |
| Visualize.Visualizer.InitializeMap | blueshark/visualization/renderer.py:63-77 | window height rows of window width cells, all the ambient index; nothing else changes |
| Visualize.Visualizer.AddMaterial | blueshark/visualization/renderer.py:88-89 | the material's index is registered as `WithMaterial` says; nothing else changes |
| Visualize.Visualizer.SetPoint | blueshark/visualization/renderer.py:202-216 | exactly one cell, at the shifted coordinate, takes the material; a coordinate outside the map is an IndexError and changes nothing |
| Visualize.Visualizer.FillRegions | blueshark/visualization/renderer.py:218-255 | a start outside the map is an IndexError and changes nothing; otherwise the map becomes `Filled` from the shifted start |
| Visualize.Visualizer.FindBoundarySegments | blueshark/visualization/renderer.py:157-200 | the loop computes exactly `BoundaryOf` on the current map |
| Operators.LineOf | blueshark/addons/topology/operators.py:34-38 | dx is the horizontal distance, dy minus the vertical distance, and each step direction points from start to end (−1 when they coincide) |
| Operators.NoOvershootX | blueshark/addons/topology/operators.py:47-50 | on the end column the error term never asks for another step in x |
| Operators.NoOvershootY | blueshark/addons/topology/operators.py:47-53 | on the end row the error term never asks for another step in y |
| Operators.ErrorAfterStep | blueshark/addons/topology/operators.py:48-53 | the error term after a step is again dx + dy minus the weighted distances left |
| Operators.LineStarts | blueshark/addons/topology/operators.py:30-40 | the start, with error dx + dy, satisfies Bresenham's invariant |
| Operators.StepKeepsCourse | blueshark/addons/topology/operators.py:47-53 | a step away from the end keeps the invariant, moves each coordinate by at most one cell toward the end and brings the walker strictly closer |
| Operators.TraceShape | blueshark/addons/topology/operators.py:42-53 | the visited cells start at the walker, end exactly at the end point, take king's moves toward it, stay in the box between the two and number at most the distance plus one |
| Operators.LineEndpoints | blueshark/addons/topology/operators.py:30-46 | both endpoints, truncated to integers, are on the line |
| Operators.TraceUnfold | blueshark/addons/topology/operators.py:42-53 | the cells visited are the walker's cell, then those visited one step later |
| Operators.Plot | blueshark/addons/topology/operators.py:43-44 | a cell inside the map takes the material and nothing else changes; on a map without rows the width test raises IndexError once x ≥ 0 |
| Operators.Advance | blueshark/addons/topology/operators.py:47-53 | both tests read the doubled error from before either update |
| Operators.Walk | blueshark/addons/topology/operators.py:42-53 | every traced cell inside the map takes the material and every other cell keeps its value; the walk fails exactly when the map has no rows and the line reaches x ≥ 0 |
| Operators.DrawLine | blueshark/addons/topology/operators.py:20-53 | the cells of the line between the truncated endpoints that lie inside the map take the material, and no other cell changes; IndexError exactly as for `Walk` |
| Smoothing.SqDist | blueshark/addons/topology/smoothing.py:16-25 | the squared distance is never negative |
| Smoothing.Simplify | blueshark/addons/topology/smoothing.py:54-64 | no points give none; otherwise the result starts with the first point |
| Smoothing.SimplifyPoints | blueshark/addons/topology/smoothing.py:46-64 | the loop over points[1:] keeps exactly `Simplify` |
| Smoothing.KeptSubsequence | blueshark/addons/topology/smoothing.py:58-62 | the points kept after the first come from the rest, in order |
| Smoothing.SubsequenceSkip | blueshark/addons/topology/smoothing.py:58-62 | a subsequence stays one when an element is put in front of the longer sequence |
| Smoothing.SubsequenceDrop | blueshark/addons/topology/smoothing.py:58-62 | a subsequence stays one without its first element |
| Smoothing.SimplifySubsequence | blueshark/addons/topology/smoothing.py:46-64 | the simplified list draws its points from the input, in order |
| Smoothing.KeptSpaced | blueshark/addons/topology/smoothing.py:59-62 | every kept point is at least min_dist from the point kept just before it |
| Smoothing.SimplifySpaced | blueshark/addons/topology/smoothing.py:46-64 | the whole simplified list is spaced by min_dist |
| Smoothing.KeptAllWhenSpaced | blueshark/addons/topology/smoothing.py:59-62 | points already spaced are all kept |
| Smoothing.SimplifyIdempotent | blueshark/addons/topology/smoothing.py:46-64 | simplifying twice is simplifying once |
| Smoothing.WindowBounds | blueshark/addons/topology/smoothing.py:82-83 | each window holds its own index, lies within the list and has at most 2 × (window // 2) + 1 points |
| Smoothing.Smooth | blueshark/addons/topology/smoothing.py:67-91 | the length is kept; no points or a window under 2 give the input back; otherwise each point is the mean of its clamped window (the window defaults to 3) |
| Smoothing.SmoothDefaultWindow | blueshark/addons/topology/smoothing.py:67-69 | with the default window of 3, a point between two others becomes the mean of the three |
| Smoothing.SmoothPoints | blueshark/addons/topology/smoothing.py:67-91 | the loop appends exactly `Smooth` |
| Smoothing.SumXBounds | blueshark/addons/topology/smoothing.py:86 | bounds on every x of a window bound the window's sum |
| Smoothing.SumYBounds | blueshark/addons/topology/smoothing.py:87 | bounds on every y of a window bound the window's sum |
| Smoothing.MeanBetween | blueshark/addons/topology/smoothing.py:86-87 | a mean lies between the bounds of what it averages |
| Smoothing.AveragedInBox | blueshark/addons/topology/smoothing.py:82-89 | a smoothed point lies in any box holding every input point |
| Smoothing.MeanXBetween | blueshark/addons/topology/smoothing.py:86 | the mean x of a window lies between bounds on all x |
| Smoothing.MeanYBetween | blueshark/addons/topology/smoothing.py:87 | the mean y of a window lies between bounds on all y |
| Smoothing.SmoothStaysInBox | blueshark/addons/topology/smoothing.py:67-91 | smoothing never leaves the bounding box of its input |
| Smoothing.SmoothConstant | blueshark/addons/topology/smoothing.py:67-91 | a run of equal points is left as it is |
| Smoothing.Influence | blueshark/addons/topology/smoothing.py:28-43 | the points kept are exactly those strictly within radius of the centre on both axes |
| Smoothing.InfluencePoints | blueshark/addons/topology/smoothing.py:36-43 | the loop keeps exactly `Influence`, in input order |
| Smoothing.NearestIndex | blueshark/addons/topology/smoothing.py:113-116 | `min` picks the first of the closest points |
| Smoothing.Nearest | blueshark/addons/topology/smoothing.py:113-116 | the point picked is one of the candidates and no candidate is closer |
| Smoothing.RemoveFirst | blueshark/addons/topology/smoothing.py:118 | `list.remove` takes away exactly one occurrence |
| Smoothing.OrderRound | blueshark/addons/topology/smoothing.py:109-119 | one round computes exactly `Step`: when no remaining point is near the last one nothing changes; otherwise a closest near point moves from the remaining points to the end of the ordered ones |
| Smoothing.Step | blueshark/addons/topology/smoothing.py:109-119 | a round leaves the state alone or appends one point, taken from the remaining ones, which lose exactly that point |
| Smoothing.StepChoice | blueshark/addons/topology/smoothing.py:110-116 | a round takes nothing exactly when no remaining point lies inside the square around the last point; otherwise it takes a closest such point |
| Smoothing.Order | blueshark/addons/topology/smoothing.py:108-119 | repeating rounds until none takes a point extends the ordered points by at most the remaining ones |
| Smoothing.OrderKeepsPoints | blueshark/addons/topology/smoothing.py:105-119 | every input point ends up ordered or left over, as often as it occurs |
| Smoothing.OrderStops | blueshark/addons/topology/smoothing.py:108-119 | the ordering stops at a point whose square holds none of the points left over |
| Smoothing.OrderSteps | blueshark/addons/topology/smoothing.py:108-119 | each appended point lies inside the square around the point before it |
| Smoothing.OrderGreedy | blueshark/addons/topology/smoothing.py:109-119 | each appended point is a closest point, among those not yet taken, inside the square around the point before it |
| Smoothing.OrderAtRest | blueshark/addons/topology/smoothing.py:112 | a round that takes nothing ends the ordering |
| Smoothing.OrderUnfolds | blueshark/addons/topology/smoothing.py:112-119 | a round that takes a point hands the ordering to the next round |
| Smoothing.RoundKeepsOrder | blueshark/addons/topology/smoothing.py:108-119 | a round does not change where the ordering ends, and leaves one point fewer when it takes one |
| Smoothing.OrderPoints | blueshark/addons/topology/smoothing.py:94-121 | the len(points) − 1 rounds reach exactly `Order` from the first point; the order starts at the first point, uses each input point at most as often as it occurs, and moves by less than radius on each axis (the radius defaults to 20) |
| Filling.Coords | blueshark/addons/topology/filling.py:32 | one vertex per entry |
| Filling.MinY | blueshark/addons/topology/filling.py:35 | the lowest y, which some vertex has |
| Filling.MaxY | blueshark/addons/topology/filling.py:36 | the highest y, which some vertex has |
| Filling.EdgeInner | blueshark/addons/topology/filling.py:41-42 | edge i joins vertex i to vertex i + 1 |
| Filling.EdgeClosing | blueshark/addons/topology/filling.py:42 | the last edge closes the polygon back to the first vertex |
| Filling.CrossingsMembers | blueshark/addons/topology/filling.py:40-54 | a crossing is recorded for exactly the edges that are taller than the tolerance and whose half-open y range holds the row |
| Filling.CrossesSides | blueshark/addons/topology/filling.py:45-48 | with a tolerance of at most 0, an edge crosses the row exactly when its ends lie on different sides of it |
| Filling.CrossingsLength | blueshark/addons/topology/filling.py:40-54 | one crossing per crossing edge |
| Filling.ChainParity | blueshark/addons/topology/filling.py:40-54 | along an open chain of edges, the number of crossings is even exactly when both ends lie on the same side of the row |
| Filling.CrossingsEven | blueshark/addons/topology/filling.py:40-54 | with a tolerance of at most 0, a closed polygon crosses every row an even number of times |
| Filling.RowCrossings | blueshark/addons/topology/filling.py:39-54 | the loop over the edges records exactly `Crossings`, in edge order |
| Filling.Insert | blueshark/addons/topology/filling.py:56 | insertion adds exactly the one element |
| Filling.InsertSorted | blueshark/addons/topology/filling.py:56 | inserting into a sorted list keeps it sorted |
| Filling.ConsSorted | blueshark/addons/topology/filling.py:56 | a sorted list stays sorted behind an element no larger than its own |
| Filling.Sort | blueshark/addons/topology/filling.py:56 | sorting keeps the same crossings |
| Filling.SortSorted | blueshark/addons/topology/filling.py:56 | the sorted crossings are in ascending order |
| Filling.RunMembers | blueshark/addons/topology/filling.py:62-63 | a run holds exactly the cells from x_start to x_end inclusive on its row, with the material |
| Filling.SpansMembers | blueshark/addons/topology/filling.py:58-63 | the runs of a row hold exactly the cells lying between the two crossings of some pair |
| Filling.RowsStep | blueshark/addons/topology/filling.py:38 | the rows are filled bottom up, one after the other |
| Filling.Fill | blueshark/addons/topology/filling.py:26-27 | no points fill nothing |
| Filling.AppendSpans | blueshark/addons/topology/filling.py:58-63 | the pair loop appends exactly the runs of the row's pairs; an unpaired last crossing adds nothing |
| Filling.FillPolygon | blueshark/addons/topology/filling.py:15-65 | the row loop from min_y to max_y inclusive produces exactly `Fill` |
| Filling.RowsMembers | blueshark/addons/topology/filling.py:38-63 | a cell is in the filled rows exactly when its row is in range and it lies in one of that row's spans |
| Filling.FillMembers | blueshark/addons/topology/filling.py:15-65 | a cell is filled exactly when its row lies between the lowest and highest vertex and its x lies between the two crossings of one of the row's sorted pairs; every filled cell carries the material |
| Filling.NoLeftover | blueshark/addons/topology/filling.py:45-63 | with a tolerance of at most 0, every crossing of a row is paired |
| Writer.StrLessIrreflexive | blueshark/output/writer.py:89 | no key sorts before itself |
| Writer.StrLessTransitive | blueshark/output/writer.py:89 | the order `sorted` uses on keys is transitive |
| Writer.StrLessTotal | blueshark/output/writer.py:89 | of two different keys, one sorts before the other |
| Writer.InsertKey | blueshark/output/writer.py:89 | adding a key to the key list adds exactly that key |
| Writer.InsertKeySorted | blueshark/output/writer.py:89 | adding a key keeps the list ascending without repeats |
| Writer.AddKeys | blueshark/output/writer.py:89 | the keys of an entry are added, and nothing else |
| Writer.AddKeysSorted | blueshark/output/writer.py:89 | adding an entry's keys keeps the list ascending without repeats |
| Writer.Header | blueshark/output/writer.py:89 | the header holds exactly the keys that occur in some entry |
| Writer.HeaderSorted | blueshark/output/writer.py:89 | the header lists each key once, in ascending order |
| Writer.Shown | blueshark/output/writer.py:97 | one string per item |
| Writer.RowOf | blueshark/output/writer.py:93-98 | one column per header key, in header order |
| Writer.RowAsDict | blueshark/output/writer.py:93-98 | a row has exactly the header's keys; a missing key holds "", a list or tuple its items shown and joined with sep, any other value itself; no value stays a list or tuple |
| Writer.BuildRows | blueshark/output/writer.py:91-99 | one row per entry, in order, each exactly `RowOf` |
| Writer.WriteOutputCsv | blueshark/output/writer.py:62-116 | empty data writes no file; a directory or file that cannot be written raises RuntimeError; otherwise the file holds the sorted header and one row per entry |
| QuasiTransient.MotionCalls | blueshark/simulate/quasi_transient.py:109-122 | no motion makes no call; a linear motion moves the frame's elements by its magnitude and angles; a rotational one rotates them about its axis by its angle |
| QuasiTransient.CurrentCalls | blueshark/simulate/quasi_transient.py:73-77 | value i goes to circuit i, in order, until the values or the circuits run out |
| QuasiTransient.StepMagnetic | blueshark/simulate/quasi_transient.py:60-77 | a frame without currents changes nothing; otherwise each value is sent to its circuit, and IndexError is raised, after the values that fit were sent, exactly when there are more values than circuits |
| QuasiTransient.ApplyMotion | blueshark/simulate/quasi_transient.py:109-122 | the renderer receives exactly the frame's motion call |
| QuasiTransient.PrependTwice | blueshark/simulate/quasi_transient.py:138 | results appended in two steps are the results appended at once |
| QuasiTransient.RunFrame | blueshark/simulate/quasi_transient.py:108-138 | one frame moves, sets currents on a magnetic renderer, cleans up and solves; a failing current step stops before the clean-up |
| QuasiTransient.RunTurn | blueshark/simulate/quasi_transient.py:107-138 | a failing frame ends the loop with its own step number; a result is the first of the loop's remaining results |
| QuasiTransient.Run | blueshark/simulate/quasi_transient.py:80-149 | the loop's results and renderer calls are exactly `Loop` from the first frame |
| QuasiTransient.LoopResults | blueshark/simulate/quasi_transient.py:104-144 | a successful run gives one result per frame |
| QuasiTransient.LoopFailure | blueshark/simulate/quasi_transient.py:107 | a failure is a RuntimeError naming a frame that was run, counted from 1 (also lines 146-149) |
| QuasiTransient.LoopFirstFailure | blueshark/simulate/quasi_transient.py:107 | the frame a failure names is the first that failed: no frame before it had more current values than circuits (also lines 146-149) |
| QuasiTransient.LoopFailsBy | blueshark/simulate/quasi_transient.py:124-149 | a frame with more current values than circuits, on a magnetic renderer, makes the loop fail at that frame or earlier |
| QuasiTransient.LoopSucceeds | blueshark/simulate/quasi_transient.py:104-144 | with a solver that never fails and no frame whose currents outnumber its circuits, the loop succeeds |
| QuasiTransient.FrameCallsKinds | blueshark/simulate/quasi_transient.py:109-125 | a frame's own calls never solve, and on a renderer that is not magnetic are only its motion |
| QuasiTransient.FrameStepKeeps | blueshark/simulate/quasi_transient.py:109-131 | one frame's calls keep every solve right after a clean-up, and on a renderer that is not magnetic change no current |
| QuasiTransient.FrameTurnKeeps | blueshark/simulate/quasi_transient.py:108-138 | one frame's turn keeps both properties of the history |
| QuasiTransient.LoopExtends | blueshark/simulate/quasi_transient.py:104-144 | the loop only appends to the renderer's history |
| QuasiTransient.LoopCalls | blueshark/simulate/quasi_transient.py:106-149 | every solve the loop makes comes right after a clean-up, and a renderer that is not magnetic never has a current changed |
| QuasiTransient.FrameCallsShape | blueshark/simulate/quasi_transient.py:109-125 | a frame moves its elements as its motion says, then a magnetic renderer receives the frame's currents, value i for circuit i |
| QuasiTransient.TooFewCircuitsFails | blueshark/simulate/quasi_transient.py:73-77 | two current values for one circuit fail at frame 1, after the first current was applied (also lines 146-149) |
| RendererLog.Recorder.constructor | blueshark/renderer/renderer_interface.py:20-35 | a new renderer has received no calls |
| RendererLog.Recorder.Receive | blueshark/renderer/renderer_interface.py:36-140 | each call is recorded after those before it |
| Numbers.FMod | blueshark/models/tubular/physics/angles.py:36-58 | Python's `%` on floats with a positive modulus lands in [0, modulus) |
| Numbers.FModUnique | blueshark/models/tubular/physics/angles.py:36-58 | the remainder is the only value in [0, modulus) that differs from the input by a whole number of moduli |
| Numbers.Ceil | blueshark/domain/generation/number_turns.py:50 | `math.ceil` gives the least integer not below its argument |
| Numbers.Trunc | blueshark/addons/topology/operators.py:31-32 | `int` on a float truncates toward zero |
| Numbers.RoundHalfEven | blueshark/addons/topology/filling.py:49-53 | `round` gives an integer within one half, and the even one on a tie |
| Dicts.SetKey | blueshark/domain/material_manager/manager.py:116-117 | `d[key] = value` makes the key hold the value and leaves every other key as it was |
| Dicts.LowerIdempotent | blueshark/domain/material_manager/manager.py:75-77 | lower-casing twice is lower-casing once |

Where the tests or documentation disagree with the code, the model follows
the code:

- On an empty series, `ripple_peak_to_peak` and `ripple_percent` return 0.0.
  The tests in tests/unit_physics.py expect a ValueError there.
- The abstract renderer interface names `move_group` and
  `change_phase_current`. The quasi-transient loop and the tubular motor
  call `move_element`, `rotate_element`, `change_circuit_current`,
  `create_circuit` and `clean_up`. `RendererLog.Call` records the calls
  the callers make.

## Left out

- Rounding to `PRECISION` decimal places is not modelled: every result is the exact real value.
- Floating-point error is not modelled: floats are exact reals, so sums, divisions and the crossing positions of `fill_polygon` are exact.
- `cos`, `sin` and the inverse Park transform are parameters (`Numbers.Trig`). Properties that need trigonometric identities assume only what the lemma states (cos² + sin² = 1 where needed).
- `ripple_rms` is not modelled, because it needs a square root.
- `draw_arc` is not modelled, because its points come from trigonometry.
- `math.hypot` is replaced by a comparison of squared distances. The model compares exact squares; the source compares rounded square roots.
- Smoothing.NearestIndex: ties are broken on exact squared distances. In the source, two different distances can round to the same `hypot` value and tie where the model does not.
- Visualize.VoxelIndex: `round` is modelled as round-half-to-even on the exact value, as Python does for floats. The binary representation of the scaled coordinate is not.
- The FEMM calls behind the renderers, the solvers and the post-processing functions are not modelled. They are parameters: `solve` in the quasi-transient loop, `measure` in both output selectors.
- The rest of the renderer is not modelled. `RendererLog.Recorder` only records the calls it receives.
- `str()` of a list item in the CSV writer is a parameter, `show`.
- The file system in `write_output_csv` is a flag, `writable`. It covers a directory or file that cannot be written, and any other exception while writing; all of these raise RuntimeError. The CSV text itself is not modelled, and neither is a partly written file.
- `write_output_json`, YAML parameter loading (`_unpack`), material library loading and `load_materials` are file I/O and are not modelled. The motor receives its parameters as a `TubularMotor.Parameters` value, with materials already resolved.
- The key table `KEY_TO_FEMM` and the `DEFAULTS` dictionary of the material helpers are parameters.
- The FEMM call in `add_femm_material` is not modelled. Only the name check made before it is.
- `_extract_material_names` builds a Python set. The model returns a set, so iteration order is not modelled.
- Logging, `print` and the `status` progress output of the quasi-transient loop are not modelled.
- `ThermalPhysics` is not modelled: its methods are empty.
- The `draw` method of the visualiser is modelled only in part: the material registration, `Visualize.Visualizer.AddMaterial`. The shape rasterisers it calls are not modelled; the points they give are what `SetPoint` writes.
- The output selectors' result dictionaries are insertion-ordered association lists. A repeated name stores the same value again, so the list keeps one entry per name in first-use order.
- `draw_line` takes the map as a rectangular `array2`. A ragged list of rows is not modelled, and the width test uses `len(top_map[0])`.
- Python's arbitrary-precision integers are Dafny's `int`. No integer in the core wraps around.
- Transforms.InversePark: stated only for cos² + sin² = 1 and for the zero angle, because it is trigonometric.
- Area.SectorArea: its contract states only the error cases. The value's properties are the lemmas `Area.ValidSectorHasArea` and `Area.FullTurnSectorIsAnnulus`.
- Area.AnnulusArea: its contract states only the error cases. The value's properties are the lemmas `Area.ValidAnnulusHasArea` and `Area.AnnulusIsDifferenceOfCircles`.
- Dicts.Lower: ASCII case folding only. Python's `str.lower` also lower-cases non-ASCII capitals, which the model leaves as they are.
- Numbers: blueshark/domain/constants.py defines `PRECISION = 12` and `TWOPI`, but not `EPSILON`, `PI` or `TWO_PI`. Yet blueshark/domain/physics/thermal.py:13 imports `EPSILON` from it, blueshark/domain/geometry/area.py:15 and blueshark/models/tubular/motor.py:19 import `PI`, and blueshark/models/tubular/physics/angles.py:13 imports `TWO_PI`. As written, those imports fail. The model uses `EPSILON` and `TWO_PI` from blueshark/configs/constants.py and `math.pi` for `PI`.
- Definitions.Connector: blueshark/visualization/renderer.py:15-20 imports `Connectors` from blueshark/domain/constants.py, which does not define it. The model uses the `Connectors` of blueshark/domain/definitions.py:76.
- MagneticSelector.Keyed: subjects are told apart by structural equality. A Python dictionary would also merge `1`, `1.0` and `True` into one key.

## Findings

| source | as written | input that shows it | evidently intended | confidence | as-written member | corrected member |
|---|---|---|---|---|---|---|
| blueshark/domain/generation/number_turns.py:42-43 | `fill_factor >= 1` is rejected with ValueError | length 10, height 10, diameter 1, fill factor 1 (the test at tests/unit_generation.py:42-47 expects 100) | a completely filled slot is allowed, 0 < fill ≤ 1, as the tubular copy does | high, not executed | GenerationTurns.FullFillRejected | TubularTurns.FullFill |
| blueshark/domain/constants.py:37 | the enum member is spelled `MIRCOMETERS`, while the conversion table keys on `Units.MICROMETERS` | building the `UnitConverter` table (blueshark/domain/physics/convert_units.py:20-27) raises AttributeError | the member is `MICROMETERS`, and every unit resolves to its factor | high, not executed | ConvertUnits.TableFailsAsWritten | ConvertUnits.TableResolvesAsIntended |
| blueshark/visualization/renderer.py:214-216 | `_set_points` indexes the map with the shifted coordinate directly | point (−1, 0) on an unshifted 2 × 2 map writes the last cell of row 0 | a point outside the map is refused (IndexError), never wrapped to the opposite edge | medium, not executed | Visualize.SetPointWrapsAsWritten | Visualize.Visualizer.SetPoint |
| blueshark/visualization/renderer.py:231-238 | `_fill__regions` reads its start cell with Python indexing | centroid (−1, 0) on an unshifted 2 × 2 map starts the fill at the last cell of row 0 | a start outside the map is refused (IndexError) | medium, not executed | Visualize.FillStartWrapsAsWritten | Visualize.Visualizer.FillRegions |
