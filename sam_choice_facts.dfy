/** What `choose_subclass` and the constructors of src/app/SAM.ts promise together: picking a
    variant keeps a tree well-typed, touches one field only, and chooses by the names that
    `input_type` advertises. */
module SamChoiceFacts {
  import opened SamTypes
  import opened SamInputType
  import opened SamFits
  import opened SamChoose

  /** A value a constructor stores is also a value the field may hold later. */
  lemma FitsLater(v: JsValue, d: Descriptor)
    requires Fits(v, d, true)
    ensures Fits(v, d, false)
  {
    match d
    case Single(t) =>
    case ArrayOf(items) =>
      if IsListDescriptor(items) {
        assert forall i :: 0 <= i < |v.elems| ==> FitsType(v.elems[i], items[0], false);
      } else {
        assert forall i :: 0 <= i < |items| ==> FitsType(v.elems[i], items[i], false);
      }
    case Union(_, _) =>
  }

  /** The readonly `insert` flags of Adder and Readout are described as booleans. */
  lemma ReadonlyIsBoolean(c: ClassName, key: string)
    requires IsReadonly(c, key)
    ensures InputType(c, key) == Some(Single(Prim(TBoolean)))
  {
  }

  /** The fields a constructor stores conform to `input_type` outside the initial state too. */
  lemma FreshConformsLater(c: ClassName, f: map<string, JsValue>)
    requires Conforms(c, f, true)
    ensures Conforms(c, f, false)
  {
    forall key | key in f
      ensures FieldFits(c, key, f[key], InputType(c, key).value, false)
    {
      if IsReadonly(c, key) {
        ReadonlyIsBoolean(c, key);
      } else {
        FitsLater(f[key], InputType(c, key).value);
      }
    }
  }

  /** Making a choice changes field `key` at most: every other field keeps its value. */
  lemma ChoiceChangesOnlyKey(ch: Choice, key: string, before: map<string, JsValue>,
                             after: map<string, JsValue>, other: string)
    requires Applied(ch, key, before, after) && other != key
    ensures other in after <==> other in before
    ensures other in before ==> after[other] == before[other]
  {
  }

  /** A key that is not a union field changes nothing. */
  lemma NonUnionKeyUnchanged(c: ClassName, key: string, name: string)
    requires !IsUnionSlot(c, key)
    ensures SamChoice(c, key, name) == Unchanged
  {
  }

  /** A name that is none of the union's variants clears the field to `undefined`. */
  lemma UnlistedNameClears(c: ClassName, key: string, name: string)
    requires IsUnionSlot(c, key) && name !in VariantNames(InputType(c, key).value.subclass)
    ensures SamChoice(c, key, name) == Cleared
  {
    VariantNamesSelect(InputType(c, key).value.subclass, name);
  }

  /** Each variant a union lists is chosen by its own name. */
  lemma ListedVariantChosen(c: ClassName, key: string, t: TypeName)
    requires HasChooseSubclass(c) && IsUnionSlot(c, key) && Some(t) in InputType(c, key).value.subclass
    ensures SamChoice(c, key, TypeNameString(t)) == Chosen(t)
  {
    SlotFacts(c, key);
    ChoosesListed(c, key, InputType(c, key).value.subclass, t);
    ChooseTableIsSamChoice(c, key, TypeNameString(t));
  }

  /** Picking a variant of a tree that conforms to `input_type` leaves it conforming: the field
      becomes `undefined` or a default of one of the listed variants. */
  lemma ChoicePreservesConformance(c: ClassName, key: string, name: string,
                                   before: map<string, JsValue>, after: map<string, JsValue>)
    requires Conforms(c, before, false)
    requires Applied(SamChoice(c, key, name), key, before, after)
    ensures Conforms(c, after, false)
  {
    var ch := SamChoice(c, key, name);
    if !ch.Unchanged? {
      var d := InputType(c, key);
      assert key in before;
      if ch.Chosen? {
        var t := VariantNamed(d.value.subclass, name).value;
        assert Some(t) in d.value.subclass;
        var i :| 0 <= i < |d.value.subclass| && d.value.subclass[i] == Some(t);
        assert FitsType(after[key], t, false);
        assert Fits(after[key], d.value, false);
      }
      forall k | k in after
        ensures InputType(c, k).Some? && FieldFits(c, k, after[k], InputType(c, k).value, false)
      {
        if k != key {
          assert after[k] == before[k];
        }
      }
    }
  }

  /** `Geometry.input_type('scanner')` advertises eight scanners. */
  lemma GeometryScannerNames()
    ensures IsUnionSlot(Geometry, "scanner")
    ensures VariantNames(InputType(Geometry, "scanner").value.subclass)
      == ["Scanner", "CTscanner", "CylindricalPET", "CPET", "ECAT", "ECATAccel", "OPET", "SPECThead"]
  {
    InputTypeOfGeometry("scanner");
    var scanners := [Some(Cls(Scanner)), Some(Cls(CTscanner)), Some(Cls(CylindricalPET)), Some(Cls(CPET)),
      Some(Cls(ECAT)), Some(Cls(ECATAccel)), Some(Cls(OPET)), Some(Cls(SPECThead))];
    assert InputType(Geometry, "scanner").value.subclass == scanners;
    GeometryScannerVariantNames();
  }

  /** Choosing any advertised scanner by its name stores a fresh default of that scanner class. */
  lemma GeometryScannerChoices(t: TypeName)
    requires Some(t) in InputType(Geometry, "scanner").value.subclass
    ensures t.Cls? && SamChoice(Geometry, "scanner", TypeNameString(t)) == Chosen(t)
  {
    InputTypeOfGeometry("scanner");
    ListedVariantChosen(Geometry, "scanner", t);
  }

  /** The unions on `Level1` and `Level2` of LocalEfficiency list the value `undefined` first;
      that entry has no name, so picking `'undefined'` clears the field like any unknown name. */
  lemma LocalEfficiencyUndefinedEntry(key: string)
    requires key == "Level1" || key == "Level2"
    ensures IsUnionSlot(LocalEfficiency, key)
    ensures InputType(LocalEfficiency, key).value.subclass[0] == None
    ensures SamChoice(LocalEfficiency, key, "undefined") == Cleared
  {
    InputTypeOfLocalEfficiency(key);
    var distributions :=
      [None, Some(Cls(Flat)), Some(Cls(Gaussian)), Some(Cls(Exponential)), Some(Cls(Manual)), Some(Cls(File))];
    assert InputType(LocalEfficiency, key).value.subclass == distributions;
    LocalEfficiencyLevel1VariantNames();
    UnlistedNameClears(LocalEfficiency, key, "undefined");
  }

  /** The primitive variants of `unique_qe` start as an empty number or an empty string. */
  lemma QuantumEfficiencyPrimitiveVariants()
    ensures SamChoice(QuantumEfficiency, "unique_qe", "number") == Chosen(Prim(TNumber))
    ensures SamChoice(QuantumEfficiency, "unique_qe", "string") == Chosen(Prim(TString))
  {
    ChooseTableIsSamChoice(QuantumEfficiency, "unique_qe", "number");
    ChooseTableIsSamChoice(QuantumEfficiency, "unique_qe", "string");
  }

  /** `engine_seed` starts as an empty number or an empty string; `time_slice` picked as `'Value'`
      holds one fresh Value node, not an array of them. */
  lemma AcquisitionPrimitiveVariants()
    ensures SamChoice(Acquisition, "engine_seed", "number") == Chosen(Prim(TNumber))
    ensures SamChoice(Acquisition, "engine_seed", "string") == Chosen(Prim(TString))
    ensures SamChoice(Acquisition, "time_slice", "Value") == Chosen(Cls(Value))
    ensures SamChoice(Acquisition, "time_slice", "string") == Chosen(Prim(TString))
  {
    ChooseTableIsSamChoice(Acquisition, "engine_seed", "number");
    ChooseTableIsSamChoice(Acquisition, "engine_seed", "string");
    ChooseTableIsSamChoice(Acquisition, "time_slice", "Value");
    ChooseTableIsSamChoice(Acquisition, "time_slice", "string");
  }
}
