/** The material helpers of blueshark/femm_utils/preprocesses/materials.py:
    the names a material list offers, the normalisation of a custom material
    dictionary, and the name check made before FEMM is asked for a library
    material. The key table KEY_TO_FEMM and the DEFAULTS dictionary come from
    the configuration and are parameters here. */
module FemmMaterials {
  import opened Wrappers
  import opened Definitions
  import opened Dicts
  import opened Loops

  /** One material of the list: a dictionary. */
  type MaterialDict = seq<(string, Value)>

  /** The keys tried for a material's name, in order. */
  const NameKeys: seq<string> := ["BlockName", "material_name", "name"]

  /** The name a material offers: the value of the first of NameKeys from
      index j on whose value is a non-empty string. */
  function NameFrom(m: MaterialDict, j: nat): (r: Option<string>)
    requires j <= |NameKeys|
    decreases |NameKeys| - j
    ensures r.Some? ==> r.value != []
  {
    if j == |NameKeys| then None
    else
      var v := Get(m, NameKeys[j]);
      if NonEmptyString(v) then Some(v.s) else NameFrom(m, j + 1)
  }

  /** isinstance(val, str) and val */
  predicate NonEmptyString(v: Value) {
    v.VStr? && v.s != []
  }

  function NameOf(m: MaterialDict): Option<string> {
    NameFrom(m, 0)
  }

  /** The set of names the materials offer. */
  function NamesOf(materials: seq<MaterialDict>): set<string> {
    if |materials| == 0 then {}
    else
      var last := NameOf(materials[|materials| - 1]);
      NamesOf(materials[..|materials| - 1]) + (if last.Some? then {last.value} else {})
  }

  /** A name is offered exactly when some material offers it. */
  lemma {:induction false} NamesOfMembers(materials: seq<MaterialDict>, n: string)
    ensures n in NamesOf(materials) <==> exists i :: 0 <= i < |materials| && NameOf(materials[i]) == Some(n)
  {
    if |materials| > 0 {
      var init := materials[..|materials| - 1];
      NamesOfMembers(init, n);
      if n in NamesOf(init) {
        var i :| 0 <= i < |init| && NameOf(init[i]) == Some(n);
        assert materials[i] == init[i];
      }
      if exists i :: 0 <= i < |materials| && NameOf(materials[i]) == Some(n) {
        var i :| 0 <= i < |materials| && NameOf(materials[i]) == Some(n);
        if i < |init| {
          assert init[i] == materials[i];
        }
      }
    }
  }

  /** BlockName wins over material_name, which wins over name; an empty
      string does not count. */
  lemma BlockNameFirst(m: MaterialDict)
    requires NonEmptyString(Get(m, "BlockName"))
    ensures NameOf(m) == Some(Get(m, "BlockName").s)
  {
  }

  lemma EmptyBlockNameSkipped(m: MaterialDict)
    requires Get(m, "BlockName") == VStr("") && Get(m, "material_name") == VNone
    requires NonEmptyString(Get(m, "name"))
    ensures NameOf(m) == Some(Get(m, "name").s)
  {
    assert NameFrom(m, 2) == Some(Get(m, "name").s);
    assert NameFrom(m, 1) == NameFrom(m, 2);
  }

  /** _extract_material_names: the loop over the materials, with the inner
      loop over the three keys that stops at the first string found. The
      source returns list(names), whose order Python leaves open, so the
      model returns the set. */
  method ExtractMaterialNames(materials: seq<MaterialDict>) returns (names: set<string>)
    ensures names == NamesOf(materials)
  {
    names := {};
    for i := 0 to |materials|
      invariant names == NamesOf(materials[..i])
    {
      var m := materials[i];
      var j := 0;
      while j < |NameKeys|
        invariant 0 <= j <= |NameKeys|
        invariant NameFrom(m, j) == NameOf(m)
      {
        var v := Get(m, NameKeys[j]);
        if v.VStr? && v.s != [] {
          names := names + {v.s};
          break;
        }
        j := j + 1;
      }
      assert materials[..i + 1][..i] == materials[..i];
      assert materials[..i + 1][i] == m;
    }
    assert materials[..|materials|] == materials;
  }

  /** add_femm_material, up to the FEMM request: the name must be offered
      by the list, else ValueError before FEMM is asked for anything.
      `requests` holds the names FEMM is asked to load. */
  method AddFemmMaterial(materials: seq<MaterialDict>, materialName: string)
    returns (r: Outcome, requests: seq<string>)
    ensures r == Pass <==> exists i :: 0 <= i < |materials| && NameOf(materials[i]) == Some(materialName)
    ensures r.Fail? ==> r.error == ValueError && requests == []
    ensures r.Pass? ==> requests == [materialName]
  {
    var available := ExtractMaterialNames(materials);
    NamesOfMembers(materials, materialName);
    if materialName !in available {
      return Fail(ValueError), [];
    }
    return Pass, [materialName];
  }

  // ---------------------------------------------------------------------
  // _normalize_material_input

  /** key_lower in KEY_TO_FEMM: a friendly key of the table. */
  predicate IsFriendly(keyToFemm: seq<(string, string)>, k: string) {
    exists i :: 0 <= i < |keyToFemm| && keyToFemm[i].0 == k
  }

  /** The friendly key whose FEMM key is `key`, searching from index j. */
  function FriendlyFrom(keyToFemm: seq<(string, string)>, key: string, j: nat): (r: Option<string>)
    requires j <= |keyToFemm|
    decreases |keyToFemm| - j
    ensures r.Some? ==> exists i :: j <= i < |keyToFemm| && keyToFemm[i] == (r.value, key)
    ensures r.None? <==> forall i :: j <= i < |keyToFemm| ==> keyToFemm[i].1 != key
  {
    if j == |keyToFemm| then None
    else if keyToFemm[j].1 == key then Some(keyToFemm[j].0)
    else FriendlyFrom(keyToFemm, key, j + 1)
  }

  /** The key a material key is stored under: its lower-cased form when
      that is a friendly key, else the friendly key of a FEMM key, else
      "name" for material_name and blockname in any case; None for any
      other key, which raises ValueError. */
  function NormalKey(keyToFemm: seq<(string, string)>, key: string): Option<string> {
    if IsFriendly(keyToFemm, Lower(key)) then Some(Lower(key))
    else if FriendlyFrom(keyToFemm, key, 0).Some? then FriendlyFrom(keyToFemm, key, 0)
    else if Lower(key) == "material_name" || Lower(key) == "blockname" then Some("name")
    else None
  }

  /** Every key the normalised dictionary uses is a friendly key or "name". */
  lemma NormalKeyIsFriendlyOrName(keyToFemm: seq<(string, string)>, key: string)
    requires NormalKey(keyToFemm, key).Some?
    ensures IsFriendly(keyToFemm, NormalKey(keyToFemm, key).value) || NormalKey(keyToFemm, key).value == "name"
  {
    if !IsFriendly(keyToFemm, Lower(key)) && FriendlyFrom(keyToFemm, key, 0).Some? {
      var i :| 0 <= i < |keyToFemm| && keyToFemm[i] == (FriendlyFrom(keyToFemm, key, 0).value, key);
    }
  }

  /** NormalKey for a fixed key table, as a function value. */
  function KeyMap(keyToFemm: seq<(string, string)>): string -> Option<string> {
    key => NormalKey(keyToFemm, key)
  }

  /** The loop over material.items() as a value, for a key mapping
      `normalKey` (KeyMap of the table in the source). */
  function NormalizeEntries(normalKey: string -> Option<string>, entries: seq<(string, Value)>)
    : (r: Result<seq<(string, Value)>>)
    ensures r.Err? ==> r.error == ValueError
  {
    if |entries| == 0 then Ok([])
    else
      var last := entries[|entries| - 1];
      var init := NormalizeEntries(normalKey, entries[..|entries| - 1]);
      if init.Err? then init
      else
        var k := normalKey(last.0);
        if k.None? then Err(ValueError) else Ok(SetKey(init.value, k.value, last.1))
  }

  /** Whether an input key can be normalised. */
  function Normalisable(normalKey: string -> Option<string>): ((string, Value)) -> bool {
    (e: (string, Value)) => normalKey(e.0).Some?
  }

  lemma {:induction false} NormalizeEntriesAll(normalKey: string -> Option<string>, entries: seq<(string, Value)>)
    ensures NormalizeEntries(normalKey, entries).Ok? <==> All(Normalisable(normalKey), entries)
  {
    if |entries| > 0 {
      NormalizeEntriesAll(normalKey, entries[..|entries| - 1]);
    }
  }

  /** The loop succeeds exactly when every key can be normalised. */
  lemma NormalizeEntriesOk(normalKey: string -> Option<string>, entries: seq<(string, Value)>)
    ensures NormalizeEntries(normalKey, entries).Ok? <==>
      forall i :: 0 <= i < |entries| ==> normalKey(entries[i].0).Some?
  {
    NormalizeEntriesAll(normalKey, entries);
    AllEvery(Normalisable(normalKey), entries);
  }

  /** Every input key's normal form is a key of the result. */
  lemma {:induction false} NormalizeKeyKept(normalKey: string -> Option<string>, entries: seq<(string, Value)>, i: nat)
    requires NormalizeEntries(normalKey, entries).Ok? && i < |entries|
    ensures normalKey(entries[i].0).Some?
    ensures HasKey(NormalizeEntries(normalKey, entries).value, normalKey(entries[i].0).value)
  {
    var init := entries[..|entries| - 1];
    assert NormalizeEntries(normalKey, init).Ok?;
    if i < |init| {
      assert init[i] == entries[i];
      NormalizeKeyKept(normalKey, init, i);
    }
  }

  /** Every key of the result is the normal form of an input key. */
  lemma {:induction false} NormalizeKeySource(normalKey: string -> Option<string>, entries: seq<(string, Value)>, k: string)
    requires NormalizeEntries(normalKey, entries).Ok? && HasKey(NormalizeEntries(normalKey, entries).value, k)
    ensures exists i :: 0 <= i < |entries| && normalKey(entries[i].0) == Some(k)
  {
    var init := entries[..|entries| - 1];
    var n := NormalizeEntries(normalKey, init);
    assert n.Ok?;
    if HasKey(n.value, k) {
      NormalizeKeySource(normalKey, init, k);
      var i :| 0 <= i < |init| && normalKey(init[i].0) == Some(k);
      assert init[i] == entries[i];
    } else {
      assert normalKey(entries[|entries| - 1].0) == Some(k);
    }
  }

  /** The normalised keys are exactly the keys the input keys map to. */
  lemma NormalizeEntriesKeys(normalKey: string -> Option<string>, entries: seq<(string, Value)>, k: string)
    requires NormalizeEntries(normalKey, entries).Ok?
    ensures HasKey(NormalizeEntries(normalKey, entries).value, k) <==>
      exists i :: 0 <= i < |entries| && normalKey(entries[i].0) == Some(k)
  {
    if exists i :: 0 <= i < |entries| && normalKey(entries[i].0) == Some(k) {
      var i :| 0 <= i < |entries| && normalKey(entries[i].0) == Some(k);
      NormalizeKeyKept(normalKey, entries, i);
    }
    if HasKey(NormalizeEntries(normalKey, entries).value, k) {
      NormalizeKeySource(normalKey, entries, k);
    }
  }

  /** Input values survive under their normalised key: the value of the
      last input key that maps to k. */
  lemma {:induction false} NormalizeEntriesValues(normalKey: string -> Option<string>, entries: seq<(string, Value)>, i: nat)
    requires NormalizeEntries(normalKey, entries).Ok? && i < |entries|
    requires forall j :: i < j < |entries| ==> normalKey(entries[j].0) != normalKey(entries[i].0)
    ensures normalKey(entries[i].0).Some?
    ensures Get(NormalizeEntries(normalKey, entries).value, normalKey(entries[i].0).value) == entries[i].1
  {
    NormalizeEntriesOk(normalKey, entries);
    var init := entries[..|entries| - 1];
    assert NormalizeEntries(normalKey, init).Ok?;
    if i < |init| {
      assert forall j :: i < j < |init| ==> init[j] == entries[j];
      assert init[i] == entries[i];
      NormalizeEntriesValues(normalKey, init, i);
    }
  }

  /** normalized.setdefault(k, default) */
  function SetDefault(d: seq<(string, Value)>, k: string, v: Value): seq<(string, Value)> {
    if HasKey(d, k) then d else d + [(k, v)]
  }

  /** for k, default in DEFAULTS.items(): normalized.setdefault(k, default) */
  function WithDefaults(d: seq<(string, Value)>, defaults: seq<(string, Value)>): seq<(string, Value)> {
    if |defaults| == 0 then d
    else
      var last := defaults[|defaults| - 1];
      SetDefault(WithDefaults(d, defaults[..|defaults| - 1]), last.0, last.1)
  }

  /** Defaults only fill keys that are missing: a key present before keeps
      its value, a missing key takes its default. */
  lemma {:induction false} DefaultsNeverOverride(d: seq<(string, Value)>, defaults: seq<(string, Value)>, k: string)
    ensures HasKey(WithDefaults(d, defaults), k) <==> HasKey(d, k) || HasKey(defaults, k)
    ensures Get(WithDefaults(d, defaults), k) == if HasKey(d, k) then Get(d, k) else Get(defaults, k)
  {
    if |defaults| > 0 {
      var init, last := defaults[..|defaults| - 1], defaults[|defaults| - 1];
      assert defaults == init + [last];
      DefaultsNeverOverride(d, init, k);
      GetAppend(init, last, k);
      var w := WithDefaults(d, init);
      if !HasKey(w, last.0) {
        GetAppend(w, last, k);
      }
    }
  }

  /** _normalize_material_input as a value. */
  function Normalize(material: Value, keyToFemm: seq<(string, string)>, defaults: seq<(string, Value)>)
    : (r: Result<seq<(string, Value)>>)
    ensures r.Err? ==> r.error == ValueError
    ensures r.Ok? <==> (material.VDict? &&
      forall i :: 0 <= i < |material.entries| ==> NormalKey(keyToFemm, material.entries[i].0).Some?)
  {
    if !material.VDict? then Err(ValueError)
    else
      NormalizeEntriesOk(KeyMap(keyToFemm), material.entries);
      var n := NormalizeEntries(KeyMap(keyToFemm), material.entries);
      if n.Err? then Err(ValueError) else Ok(WithDefaults(n.value, defaults))
  }

  /** The normalised dictionary holds exactly the normalised input keys
      and the default keys. */
  lemma NormalizedKeys(material: Value, keyToFemm: seq<(string, string)>, defaults: seq<(string, Value)>, k: string)
    requires Normalize(material, keyToFemm, defaults).Ok?
    ensures HasKey(Normalize(material, keyToFemm, defaults).value, k) <==>
      (exists i :: 0 <= i < |material.entries| && NormalKey(keyToFemm, material.entries[i].0) == Some(k))
      || HasKey(defaults, k)
  {
    var n := NormalizeEntries(KeyMap(keyToFemm), material.entries);
    NormalizeEntriesKeys(KeyMap(keyToFemm), material.entries, k);
    DefaultsNeverOverride(n.value, defaults, k);
    assert forall i :: 0 <= i < |material.entries| ==>
      KeyMap(keyToFemm)(material.entries[i].0) == NormalKey(keyToFemm, material.entries[i].0);
  }

  /** With a table mapping the friendly key "mu_x" to the FEMM key "Mu_x":
      both spellings land on "mu_x", BlockName becomes "name", and an
      unknown key is refused. */
  lemma KeyMapExamples()
    ensures NormalKey([("mu_x", "Mu_x")], "MU_X") == Some("mu_x")
    ensures NormalKey([("mu_x", "Mu_x")], "Mu_x") == Some("mu_x")
    ensures NormalKey([("mu_x", "Mu_x")], "BlockName") == Some("name")
    ensures NormalKey([("mu_x", "Mu_x")], "colour") == None
  {
    var t := [("mu_x", "Mu_x")];
    assert Lower("MU_X") == "mu_x" && t[0].0 == "mu_x";
    assert Lower("Mu_x") == "mu_x";
    assert Lower("BlockName") == "blockname";
    assert Lower("colour") == "colour";
    assert !IsFriendly(t, "blockname") && !IsFriendly(t, "colour");
  }

  /** _normalize_material_input: the key loop, whose inner for-else looks
      the key up among the FEMM keys, then the defaults loop. */
  method NormalizeMaterialInput(material: Value, keyToFemm: seq<(string, string)>, defaults: seq<(string, Value)>)
    returns (r: Result<seq<(string, Value)>>)
    ensures r == Normalize(material, keyToFemm, defaults)
  {
    if !material.VDict? {
      return Err(ValueError);
    }
    var entries := material.entries;
    NormalizeEntriesOk(KeyMap(keyToFemm), entries);
    var normalized := [];
    for i := 0 to |entries|
      invariant NormalizeEntries(KeyMap(keyToFemm), entries[..i]) == Ok(normalized)
    {
      var (key, value) := entries[i];
      assert entries[..i + 1][..i] == entries[..i];
      assert KeyMap(keyToFemm)(key) == NormalKey(keyToFemm, key);
      var keyLower := Lower(key);
      if IsFriendly(keyToFemm, keyLower) {
        normalized := SetKey(normalized, keyLower, value);
      } else {
        var friendly := FindFriendly(keyToFemm, key);
        if friendly.Some? {
          normalized := SetKey(normalized, friendly.value, value);
        } else if keyLower == "material_name" || keyLower == "blockname" {
          normalized := SetKey(normalized, "name", value);
        } else {
          assert NormalKey(keyToFemm, entries[i].0).None?;
          return Err(ValueError);
        }
      }
    }
    assert entries[..|entries|] == entries;
    var filled := normalized;
    for j := 0 to |defaults|
      invariant filled == WithDefaults(normalized, defaults[..j])
    {
      assert defaults[..j + 1][..j] == defaults[..j];
      var (k, v) := defaults[j];
      if !HasKey(filled, k) {
        filled := filled + [(k, v)];
      }
    }
    assert defaults[..|defaults|] == defaults;
    return Ok(filled);
  }

  /** for friendly, femm_key in KEY_TO_FEMM.items(): if key == femm_key: ... break */
  method FindFriendly(keyToFemm: seq<(string, string)>, key: string) returns (r: Option<string>)
    ensures r == FriendlyFrom(keyToFemm, key, 0)
  {
    for j := 0 to |keyToFemm|
      invariant FriendlyFrom(keyToFemm, key, j) == FriendlyFrom(keyToFemm, key, 0)
    {
      if keyToFemm[j].1 == key {
        return Some(keyToFemm[j].0);
      }
    }
    return None;
  }

  /** A list instead of a dictionary is refused. */
  lemma NonDictRejected(keyToFemm: seq<(string, string)>, defaults: seq<(string, Value)>)
    ensures Normalize(VList([]), keyToFemm, defaults) == Err(ValueError)
  {
  }
}
