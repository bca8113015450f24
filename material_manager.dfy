/** MaterialManager of blueshark/domain/material_manager/manager.py: looks
    materials up in a library by name, enforces the parameters each material
    tag requires, and records which materials were used. */
module MaterialManager {
  import opened Wrappers
  import opened Definitions
  import opened Dicts

  /** A nested property dictionary of a material ("magnetic", "physical").
      Lookup copies a material shallowly, so the library entry and every
      copy handed out share these objects. */
  class PropTable {
    var entries: seq<(string, Value)>

    constructor (entries: seq<(string, Value)>)
      ensures this.entries == entries
    {
      this.entries := entries;
    }
  }

  /** The outer dictionary of one library material. An absent "tag" reads
      as "", absent "grades" as {}; an absent "name", "magnetic" or
      "physical" is None. */
  datatype Material = Material(
    name: Option<string>,
    tag: Option<string>,
    magnetic: Option<PropTable>,
    physical: Option<PropTable>,
    grades: seq<(string, Value)>)

  /** The nested tables a material refers to. */
  function Tables(m: Material): set<PropTable> {
    (if m.magnetic.Some? then {m.magnetic.value} else {})
    + (if m.physical.Some? then {m.physical.value} else {})
  }

  function LibraryTables(library: seq<Material>): set<PropTable> {
    if |library| == 0 then {} else LibraryTables(library[..|library| - 1]) + Tables(library[|library| - 1])
  }

  lemma LibraryTablesCover(library: seq<Material>, i: nat)
    requires i < |library|
    ensures Tables(library[i]) <= LibraryTables(library)
  {
    if i < |library| - 1 {
      LibraryTablesCover(library[..|library| - 1], i);
    }
  }

  // ---------------------------------------------------------------------
  // _lookup_material

  /** The material's name equals the lower-cased request, ignoring case. */
  predicate Matches(m: Material, nameLower: string) {
    m.name.Some? && Lower(m.name.value) == nameLower
  }

  /** Every material in library[k..i] has a name and none matches. */
  predicate PassedOver(library: seq<Material>, nameLower: string, k: nat, i: nat)
    requires k <= i <= |library|
  {
    forall j :: k <= j < i ==> library[j].name.Some? && !Matches(library[j], nameLower)
  }

  /** The scan from index k: the first matching material, or KeyError at
      the end of the library or at a material without a "name" key. */
  function LookupFrom(library: seq<Material>, nameLower: string, k: nat): (r: Result<Material>)
    requires k <= |library|
    decreases |library| - k
    ensures r.Err? ==> r.error == KeyError
    ensures r.Ok? <==> exists i :: k <= i < |library| && Matches(library[i], nameLower)
                                  && PassedOver(library, nameLower, k, i)
    ensures r.Ok? ==> exists i :: k <= i < |library| && library[i] == r.value
                                  && Matches(r.value, nameLower) && PassedOver(library, nameLower, k, i)
  {
    if k == |library| then Err(KeyError)
    else if library[k].name.None? then Err(KeyError)
    else if Lower(library[k].name.value) == nameLower then
      assert PassedOver(library, nameLower, k, k);
      Ok(library[k])
    else
      var r := LookupFrom(library, nameLower, k + 1);
      assert forall i :: k + 1 <= i <= |library| ==>
        (PassedOver(library, nameLower, k, i) <==> PassedOver(library, nameLower, k + 1, i));
      assert !Matches(library[k], nameLower);
      r
  }

  /** _lookup_material: the first library material whose name equals name
      ignoring case, as a shallow copy; KeyError when there is none. */
  function Lookup(library: seq<Material>, name: string): Result<Material> {
    LookupFrom(library, Lower(name), 0)
  }

  /** Lookup ignores case: two spellings that lower-case alike find the
      same material, and the material found carries the requested name up
      to case and comes before every other match. */
  lemma LookupIgnoresCase(library: seq<Material>, a: string, b: string)
    requires Lower(a) == Lower(b)
    requires Lookup(library, a).Ok?
    ensures Lookup(library, b) == Lookup(library, a)
    ensures Lower(Lookup(library, b).value.name.value) == Lower(b)
    ensures exists i :: 0 <= i < |library| && library[i] == Lookup(library, b).value
                        && forall j :: 0 <= j < i ==> !Matches(library[j], Lower(b))
  {
  }

  /** A name no material carries raises KeyError. */
  lemma UnknownNameRaisesKeyError(library: seq<Material>, name: string)
    requires forall i :: 0 <= i < |library| ==> !Matches(library[i], Lower(name))
    ensures Lookup(library, name) == Err(KeyError)
  {
  }

  // ---------------------------------------------------------------------
  // _apply_parameter

  /** material.get("tag", "").lower() */
  function TagOf(m: Material): string {
    if m.tag.Some? then Lower(m.tag.value) else ""
  }

  /** The grade-dependent properties a magnet request copies into
      "magnetic": grades[params["grade"]] */
  function GradeProps(m: Material, params: seq<(string, Value)>): seq<(string, Value)> {
    var grade := Get(params, "grade");
    if grade.VStr? && Get(m.grades, grade.s).VDict? then Get(m.grades, grade.s).entries else []
  }

  /** The exception _apply_parameter raises for this material and these
      keyword parameters, in the order the source checks them. */
  function ApplyCheck(m: Material, params: seq<(string, Value)>): Outcome {
    var tag := TagOf(m);
    if tag == "magnet" then
      if !HasKey(params, "grade") then Fail(ValueError)
      else if !Get(params, "grade").VStr? then Fail(TypeError)
      else if !HasKey(m.grades, Get(params, "grade").s) then Fail(ValueError)
      else if !Get(m.grades, Get(params, "grade").s).VDict? then Fail(AttributeError)
      else if |GradeProps(m, params)| > 0 && m.magnetic.None? then Fail(KeyError)
      else Pass
    else if tag == "wire" then
      if !HasKey(params, "wire_diameter") then Fail(ValueError)
      else if !IsNumber(Get(params, "wire_diameter")) then Fail(TypeError)
      else if m.physical.None? then Fail(KeyError)
      else Pass
    else if tag == "" then Pass
    else Fail(ValueError)
  }

  /** The one table _apply_parameter writes for this material's tag. */
  function Written(m: Material): set<PropTable> {
    if TagOf(m) == "magnet" && m.magnetic.Some? then {m.magnetic.value}
    else if TagOf(m) == "wire" && m.physical.Some? then {m.physical.value}
    else {}
  }

  /** _apply_parameter: checks the parameters the tag requires, then writes
      a magnet's grade properties into its "magnetic" table or a wire's
      diameter into its "physical" table. The tables are shared, so the
      library sees the writes too. */
  method ApplyParameter(material: Material, params: seq<(string, Value)>) returns (r: Result<Material>)
    modifies Written(material)
    ensures r.Err? <==> ApplyCheck(material, params).Fail?
    ensures r.Err? ==> r.error == ApplyCheck(material, params).error
    ensures r.Ok? ==> r.value == material
    ensures r.Err? ==> unchanged(Written(material))
    ensures r.Ok? && TagOf(material) == "magnet" && material.magnetic.Some? ==>
      material.magnetic.value.entries
        == SetAll(old(material.magnetic.value.entries), GradeProps(material, params))
    ensures r.Ok? && TagOf(material) == "wire" ==>
      material.physical.value.entries
        == SetKey(old(material.physical.value.entries), "wire_diameter", Get(params, "wire_diameter"))
  {
    var check := ApplyCheck(material, params);
    if check.Fail? {
      return Err(check.error);
    }
    var tag := TagOf(material);
    if tag == "magnet" {
      var props := GradeProps(material, params);
      if material.magnetic.Some? {
        var t := material.magnetic.value;
        CopyProps(t, props);
      }
    } else if tag == "wire" {
      var t := material.physical.value;
      t.entries := SetKey(t.entries, "wire_diameter", Get(params, "wire_diameter"));
    }
    return Ok(material);
  }

  /** for key, value in grade_props.items(): material["magnetic"][key] = value */
  method CopyProps(t: PropTable, props: seq<(string, Value)>)
    modifies t
    ensures t.entries == SetAll(old(t.entries), props)
  {
    for i := 0 to |props|
      invariant t.entries == SetAll(old(t.entries), props[..i])
    {
      assert props[..i + 1][..i] == props[..i];
      t.entries := SetKey(t.entries, props[i].0, props[i].1);
    }
    assert props[..|props|] == props;
  }

  /** The test cases: a wire given a numeric diameter passes, a wire given
      an unrelated parameter, a magnet without a grade and an unknown tag
      raise ValueError. */
  lemma WireDiameterAccepted(t: PropTable)
    ensures ApplyCheck(Material(Some("W"), Some("wire"), None, Some(t), []),
                       [("wire_diameter", VFloat(0.6))]) == Pass
  {
    assert [("wire_diameter", VFloat(0.6))][0].0 == "wire_diameter";
  }

  lemma WireWithoutDiameterRejected(t: PropTable)
    ensures ApplyCheck(Material(Some("W"), Some("wire"), None, Some(t), []),
                       [("exist", VFloat(0.6))]) == Fail(ValueError)
  {
  }

  lemma MagnetWithoutGradeRejected(t: PropTable)
    ensures ApplyCheck(Material(Some("M"), Some("magnet"), Some(t), Some(t), []), []) == Fail(ValueError)
  {
  }

  lemma UnknownTagRejected()
    ensures ApplyCheck(Material(Some("M"), Some("i don't exist"), None, None, []), []) == Fail(ValueError)
  {
    assert Lower("i don't exist") != "magnet" && Lower("i don't exist") != "wire";
  }

  /** The grades of the magnet test material. */
  function TestGrades(): seq<(string, Value)> {
    [("N35", VDict([("coercivity", VInt(905659)), ("Remanence", VFloat(1.104))])),
     ("N42", VDict([("coercivity", VInt(994529)), ("Remanence", VFloat(1.104))]))]
  }

  /** The magnet test material asking for grade N35. */
  function TestMagnet(t: PropTable): Material {
    Material(Some("UNIT_TEST_MAGNET"), Some("magnet"), Some(t), None, TestGrades())
  }

  /** The magnet test: grade N35 passes the checks and its coercivity and
      remanence overwrite those of the "magnetic" table. */
  lemma MagnetGradeApplied(t: PropTable, magnetic: seq<(string, Value)>)
    ensures ApplyCheck(TestMagnet(t), [("grade", VStr("N35"))]) == Pass
    ensures Get(SetAll(magnetic, GradeProps(TestMagnet(t), [("grade", VStr("N35"))])), "coercivity") == VInt(905659)
    ensures Get(SetAll(magnetic, GradeProps(TestMagnet(t), [("grade", VStr("N35"))])), "Remanence") == VFloat(1.104)
  {
    var props := [("coercivity", VInt(905659)), ("Remanence", VFloat(1.104))];
    N35Props(t);
    assert props[0].0 == "coercivity" && props[1].0 == "Remanence";
    SetAllGet(magnetic, props, "coercivity");
    SetAllGet(magnetic, props, "Remanence");
  }

  lemma N35Props(t: PropTable)
    ensures ApplyCheck(TestMagnet(t), [("grade", VStr("N35"))]) == Pass
    ensures GradeProps(TestMagnet(t), [("grade", VStr("N35"))])
         == [("coercivity", VInt(905659)), ("Remanence", VFloat(1.104))]
  {
    var params := [("grade", VStr("N35"))];
    assert params[0].0 == "grade";
    assert Get(params, "grade") == VStr("N35");
    assert TestGrades()[0].0 == "N35";
    assert Get(TestGrades(), "N35") == TestGrades()[0].1;
    assert Lower("magnet") == "magnet";
  }

  /** A material without a tag takes any parameters. */
  lemma UntaggedTakesAnything(m: Material, params: seq<(string, Value)>)
    requires m.tag.None?
    ensures ApplyCheck(m, params) == Pass
  {
  }

  // ---------------------------------------------------------------------
  // _track_usage

  predicate NoDuplicates(names: seq<string>) {
    forall i, j :: 0 <= i < j < |names| ==> names[i] != names[j]
  }

  /** used_materials after recording name */
  function Tracked(used: seq<string>, name: string): seq<string> {
    if name in used then used else used + [name]
  }

  /** Recording a use keeps each name once, keeps the earlier names in
      their first-use order, and leaves the name recorded. */
  lemma TrackedKeepsFirstUseOrder(used: seq<string>, name: string)
    requires NoDuplicates(used)
    ensures NoDuplicates(Tracked(used, name))
    ensures name in Tracked(used, name)
    ensures used <= Tracked(used, name)
    ensures |Tracked(used, name)| <= |used| + 1
  {
  }

  class Manager {
    /** used_materials: the names passed to successful use_material calls,
        each once, in first-use order. */
    var usedMaterials: seq<string>
    /** materials["material"]: the library, as loaded. */
    var library: seq<Material>

    predicate Valid()
      reads this
    {
      NoDuplicates(usedMaterials)
    }

    /** __init__ with the library already loaded. */
    constructor (library: seq<Material>)
      ensures Valid()
      ensures this.library == library && usedMaterials == []
    {
      this.library := library;
      usedMaterials := [];
    }

    /** _lookup_material: the loop over the library. */
    method LookupMaterial(name: string) returns (r: Result<Material>)
      ensures r == Lookup(library, name)
    {
      var nameLower := Lower(name);
      for i := 0 to |library|
        invariant LookupFrom(library, nameLower, i) == LookupFrom(library, nameLower, 0)
      {
        var mat := library[i];
        if mat.name.None? {
          return Err(KeyError);
        }
        if Lower(mat.name.value) == nameLower {
          return Ok(mat);
        }
      }
      return Err(KeyError);
    }

    /** _track_usage */
    method TrackUsage(name: string)
      requires Valid()
      modifies this
      ensures Valid()
      ensures usedMaterials == Tracked(old(usedMaterials), name)
      ensures library == old(library)
    {
      TrackedKeepsFirstUseOrder(usedMaterials, name);
      if name !in usedMaterials {
        usedMaterials := usedMaterials + [name];
      }
    }

    /** use_material: look up, apply the parameters, then record the use.
        A failed call records nothing; a successful one hands out the
        library's own material, whose nested tables carry the writes. */
    method UseMaterial(name: string, params: seq<(string, Value)>) returns (r: Result<Material>)
      requires Valid()
      modifies this, LibraryTables(library)
      ensures Valid()
      ensures library == old(library)
      ensures r.Err? <==> Lookup(library, name).Err? || ApplyCheck(Lookup(library, name).value, params).Fail?
      ensures r.Err? ==> r.error == if Lookup(library, name).Err? then KeyError
                                    else ApplyCheck(Lookup(library, name).value, params).error
      ensures r.Err? ==> usedMaterials == old(usedMaterials)
      ensures r.Ok? ==> usedMaterials == Tracked(old(usedMaterials), name)
      ensures r.Ok? ==> r.value == Lookup(library, name).value
      ensures forall t :: old(allocated(t)) && t in old(LibraryTables(library)) && (r.Err? || t !in Written(r.value)) ==>
        unchanged(t)
      ensures r.Ok? ==> exists i :: 0 <= i < |library| && library[i] == r.value
      ensures r.Ok? && TagOf(r.value) == "wire" ==>
        r.value.physical.value.entries
          == SetKey(old(r.value.physical.value.entries), "wire_diameter", Get(params, "wire_diameter"))
      ensures r.Ok? && TagOf(r.value) == "magnet" && r.value.magnetic.Some? ==>
        r.value.magnetic.value.entries
          == SetAll(old(r.value.magnetic.value.entries), GradeProps(r.value, params))
    {
      var found := LookupMaterial(name);
      if found.Err? {
        return found;
      }
      var material := found.value;
      ghost var i :| 0 <= i < |library| && library[i] == material;
      LibraryTablesCover(library, i);
      r := ApplyParameter(material, params);
      if r.Err? {
        return r;
      }
      TrackUsage(name);
    }
  }
}
