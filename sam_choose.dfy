/** `choose_subclass(key, subclass)` of the classes of src/app/SAM.ts that own tagged-union fields:
    the form calls it when the user picks a variant, and it replaces that one field with a fresh
    default of the variant. */
module SamChoose {
  import opened SamTypes
  import opened SamInputType
  import opened SamFits
  import opened SamDefaults

  /** The entry of a union's `subclass` list that the name `name` selects: the first one whose type
      name is `name`. The `undefined` entry is selected by no name. */
  function VariantNamed(subclass: seq<Option<TypeName>>, name: string): (r: Option<TypeName>)
    ensures r.Some? ==> r in subclass && TypeNameString(r.value) == name
  {
    if |subclass| == 0 then None
    else if subclass[0].Some? && TypeNameString(subclass[0].value) == name then subclass[0]
    else
      var r := VariantNamed(subclass[1..], name);
      assert r.Some? ==> r in subclass;
      r
  }

  /** The names of the variants of a union's `subclass` list, in order; the `undefined` entry has
      none. */
  function VariantNames(subclass: seq<Option<TypeName>>): (r: seq<string>)
    ensures |r| <= |subclass|
  {
    if |subclass| == 0 then []
    else if subclass[0].Some? then [TypeNameString(subclass[0].value)] + VariantNames(subclass[1..])
    else VariantNames(subclass[1..])
  }

  /** A list every entry of which names a type has one name per entry, in order. */
  lemma {:induction false} VariantNamesAllListed(subclass: seq<Option<TypeName>>)
    requires forall i :: 0 <= i < |subclass| ==> subclass[i].Some?
    ensures |VariantNames(subclass)| == |subclass|
    ensures forall i :: 0 <= i < |subclass| ==> VariantNames(subclass)[i] == TypeNameString(subclass[i].value)
  {
    if |subclass| > 0 {
      VariantNamesAllListed(subclass[1..]);
      assert VariantNames(subclass) == [TypeNameString(subclass[0].value)] + VariantNames(subclass[1..]);
    }
  }

  /** A name is listed among the variants exactly when it selects one. */
  lemma {:induction false} VariantNamesSelect(subclass: seq<Option<TypeName>>, name: string)
    ensures name in VariantNames(subclass) <==> VariantNamed(subclass, name).Some?
  {
    if |subclass| > 0 {
      VariantNamesSelect(subclass[1..], name);
    }
  }

  /** What `choose_subclass(key, name)` is to do to a field whose descriptor is `d`. */
  datatype Choice =
    | Unchanged           // not a union field: the outer switch has no case for it
    | Cleared             // `name` is none of the variants: the field becomes `undefined`
    | Chosen(t: TypeName) // the field becomes a fresh default of variant `t`

  /** The choice that descriptor `d` calls for when variant `name` is picked. */
  function ChoiceIn(d: Option<Descriptor>, name: string): Choice
  {
    if d.None? || !d.value.Union? then Unchanged
    else
      match VariantNamed(d.value.subclass, name)
      case Some(t) => Chosen(t)
      case None => Cleared
  }

  /** The choice that `c.input_type(key)` calls for. */
  function SamChoice(c: ClassName, key: string, name: string): Choice
  {
    ChoiceIn(InputType(c, key), name)
  }

  /** The fields `after` are the fields `before` with choice `ch` made on field `key`: only that
      field may differ, and it holds `undefined` or the initial value of the chosen variant (a node
      of that class, `null` for `'number'`, `''` for `'string'`). */
  ghost predicate Applied(ch: Choice, key: string, before: map<string, JsValue>, after: map<string, JsValue>)
  {
    match ch
    case Unchanged => after == before
    case Cleared => after == before[key := Undefined]
    case Chosen(t) => key in after && after == before[key := after[key]] && FitsType(after[key], t, true)
  }

  /** Table `ChooseTable(c, key, _)` chooses every variant of union descriptor `d` by its name and
      clears the field for every other name. */
  ghost predicate SlotChoices(c: ClassName, key: string, d: Option<Descriptor>)
  {
    && HasChooseSubclass(c)
    && d.Some? && d.value.Union?
    && ChoosesAll(c, key, d.value.subclass)
    && (forall s :: ChooseTable(c, key, s) != Unchanged)
    && (forall s :: ChooseTable(c, key, s).Chosen? ==> s in VariantNames(d.value.subclass))
  }

  /** Table `ChooseTable(c, key, _)` chooses every entry of `subclass` by its name. */
  predicate ChoosesAll(c: ClassName, key: string, subclass: seq<Option<TypeName>>)
    requires HasChooseSubclass(c)
  {
    || |subclass| == 0
    || (&& (subclass[0].Some? ==> ChooseTable(c, key, TypeNameString(subclass[0].value)) == Chosen(subclass[0].value))
        && ChoosesAll(c, key, subclass[1..]))
  }

  /** A table that chooses every entry of a list by name chooses each listed type by its name. */
  lemma {:induction false} ChoosesListed(c: ClassName, key: string, subclass: seq<Option<TypeName>>, t: TypeName)
    requires HasChooseSubclass(c) && ChoosesAll(c, key, subclass) && Some(t) in subclass
    ensures ChooseTable(c, key, TypeNameString(t)) == Chosen(t)
  {
    if subclass[0] != Some(t) {
      assert Some(t) in subclass[1..];
      ChoosesListed(c, key, subclass[1..], t);
    }
  }

  /** A table that chooses a union's variants by name makes the choice the descriptor calls for. */
  lemma SlotAgreement(c: ClassName, key: string, d: Option<Descriptor>, name: string)
    requires SlotChoices(c, key, d)
    ensures ChooseTable(c, key, name) == ChoiceIn(d, name)
  {
    VariantNamesSelect(d.value.subclass, name);
    var r := VariantNamed(d.value.subclass, name);
    if r.Some? {
      ChoosesListed(c, key, d.value.subclass, r.value);
    }
  }

  /** The switches of `Geometry.choose_subclass(key, subclass)`. */
  function GeometryChoice(key: string, subclass: string): Choice
  {
    match key
    case "scanner" =>
      (match subclass
       case "Scanner" => Chosen(Cls(Scanner))
       case "CTscanner" => Chosen(Cls(CTscanner))
       case "CylindricalPET" => Chosen(Cls(CylindricalPET))
       case "CPET" => Chosen(Cls(CPET))
       case "ECAT" => Chosen(Cls(ECAT))
       case "ECATAccel" => Chosen(Cls(ECATAccel))
       case "OPET" => Chosen(Cls(OPET))
       case "SPECThead" => Chosen(Cls(SPECThead))
       case _ => Cleared)
    case "phantom" =>
      (match subclass
       case "Volume" => Chosen(Cls(Volume))
       case "VoxelizedPhantom" => Chosen(Cls(VoxelizedPhantom))
       case _ => Cleared)
    case _ => Unchanged
  }

  /** The switches of `Volume.choose_subclass(key, subclass)`. */
  function VolumeChoice(key: string, subclass: string): Choice
  {
    match key
    case "shape" =>
      (match subclass
       case "Box" => Chosen(Cls(Box))
       case "Sphere" => Chosen(Cls(Sphere))
       case "Cylinder" => Chosen(Cls(Cylinder))
       case "Cone" => Chosen(Cls(Cone))
       case "Ellipsoid" => Chosen(Cls(Ellipsoid))
       case "EllipticalTube" => Chosen(Cls(EllipticalTube))
       case "Tessellated" => Chosen(Cls(Tessellated))
       case "TetMeshBox" => Chosen(Cls(TetMeshBox))
       case "TRPD" => Chosen(Cls(TRPD))
       case "Hexagone" => Chosen(Cls(Hexagone))
       case "Wedge" => Chosen(Cls(Wedge))
       case _ => Cleared)
    case _ => Unchanged
  }

  /** The switches of `Blurring.choose_subclass(key, subclass)`. */
  function BlurringChoice(key: string, subclass: string): Choice
  {
    match key
    case "law" =>
      (match subclass
       case "InverseSquareLaw" => Chosen(Cls(InverseSquareLaw))
       case "LinearLaw" => Chosen(Cls(LinearLaw))
       case _ => Cleared)
    case _ => Unchanged
  }

  /** The switches of `QuantumEfficiency.choose_subclass(key, subclass)`. */
  function QuantumEfficiencyChoice(key: string, subclass: string): Choice
  {
    match key
    case "unique_qe" =>
      (match subclass
       case "number" => Chosen(Prim(TNumber))
       case "string" => Chosen(Prim(TString))
       case _ => Cleared)
    case _ => Unchanged
  }

  /** The switches of `Noise.choose_subclass(key, subclass)`. */
  function NoiseChoice(key: string, subclass: string): Choice
  {
    match key
    case "deltaT_distribution" =>
      (match subclass
       case "Flat" => Chosen(Cls(Flat))
       case "Gaussian" => Chosen(Cls(Gaussian))
       case "Exponential" => Chosen(Cls(Exponential))
       case "Manual" => Chosen(Cls(Manual))
       case "File" => Chosen(Cls(File))
       case _ => Cleared)
    case "energy_distribution" =>
      (match subclass
       case "Flat" => Chosen(Cls(Flat))
       case "Gaussian" => Chosen(Cls(Gaussian))
       case "Exponential" => Chosen(Cls(Exponential))
       case "Manual" => Chosen(Cls(Manual))
       case "File" => Chosen(Cls(File))
       case _ => Cleared)
    case _ => Unchanged
  }

  /** The switches of `LocalEfficiency.choose_subclass(key, subclass)`. */
  function LocalEfficiencyChoice(key: string, subclass: string): Choice
  {
    match key
    case "Level1" =>
      (match subclass
       case "Flat" => Chosen(Cls(Flat))
       case "Gaussian" => Chosen(Cls(Gaussian))
       case "Exponential" => Chosen(Cls(Exponential))
       case "Manual" => Chosen(Cls(Manual))
       case "File" => Chosen(Cls(File))
       case _ => Cleared)
    case "Level2" =>
      (match subclass
       case "Flat" => Chosen(Cls(Flat))
       case "Gaussian" => Chosen(Cls(Gaussian))
       case "Exponential" => Chosen(Cls(Exponential))
       case "Manual" => Chosen(Cls(Manual))
       case "File" => Chosen(Cls(File))
       case _ => Cleared)
    case _ => Unchanged
  }

  /** The switches of `ChooseSource.choose_subclass(key, subclass)`. */
  function ChooseSourceChoice(key: string, subclass: string): Choice
  {
    match key
    case "choose_source" =>
      (match subclass
       case "Source" => Chosen(Cls(Source))
       case "VoxelizedSource" => Chosen(Cls(VoxelizedSource))
       case _ => Cleared)
    case _ => Unchanged
  }

  /** The switches of `VoxelizedSource.choose_subclass(key, subclass)`. */
  function VoxelizedSourceChoice(key: string, subclass: string): Choice
  {
    match key
    case "insert_translator" =>
      (match subclass
       case "LinearTranslator" => Chosen(Cls(LinearTranslator))
       case "RangeTranslator" => Chosen(Cls(RangeTranslator))
       case _ => Cleared)
    case _ => Unchanged
  }

  /** The switches of `Acquisition.choose_subclass(key, subclass)`. */
  function AcquisitionChoice(key: string, subclass: string): Choice
  {
    match key
    case "time_slice" =>
      (match subclass
       case "Value" => Chosen(Cls(Value))
       case "string" => Chosen(Prim(TString))
       case _ => Cleared)
    case "engine_seed" =>
      (match subclass
       case "number" => Chosen(Prim(TNumber))
       case "string" => Chosen(Prim(TString))
       case _ => Cleared)
    case _ => Unchanged
  }

  /** The classes that have a `choose_subclass` method. */
  predicate HasChooseSubclass(c: ClassName)
  {
    c in {Geometry, Volume, Blurring, QuantumEfficiency, Noise, LocalEfficiency, ChooseSource,
         VoxelizedSource, Acquisition}
  }

  /** `c.choose_subclass(key, subclass)` as a table, for a class that has the method. */
  function ChooseTable(c: ClassName, key: string, subclass: string): Choice
    requires HasChooseSubclass(c)
  {
    match c
    case Geometry => GeometryChoice(key, subclass)
    case Volume => VolumeChoice(key, subclass)
    case Blurring => BlurringChoice(key, subclass)
    case QuantumEfficiency => QuantumEfficiencyChoice(key, subclass)
    case Noise => NoiseChoice(key, subclass)
    case LocalEfficiency => LocalEfficiencyChoice(key, subclass)
    case ChooseSource => ChooseSourceChoice(key, subclass)
    case VoxelizedSource => VoxelizedSourceChoice(key, subclass)
    case Acquisition => AcquisitionChoice(key, subclass)
  }

  /** The names of the variants of `Geometry.scanner`, in the order `input_type` lists them. */
  lemma GeometryScannerVariantNames()
    ensures VariantNames([Some(Cls(Scanner)), Some(Cls(CTscanner)), Some(Cls(CylindricalPET)),
      Some(Cls(CPET)), Some(Cls(ECAT)), Some(Cls(ECATAccel)), Some(Cls(OPET)),
      Some(Cls(SPECThead))])
      == ["Scanner", "CTscanner", "CylindricalPET", "CPET", "ECAT", "ECATAccel", "OPET",
        "SPECThead"]
  {
    NameOfScanner(); NameOfCTscanner(); NameOfCylindricalPET(); NameOfCPET(); NameOfECAT();
    NameOfECATAccel(); NameOfOPET(); NameOfSPECThead();
  }

  /** `Geometry.choose_subclass` chooses each variant of `Geometry.scanner` by its name. */
  lemma GeometryScannerChoosesAll()
    ensures ChoosesAll(Geometry, "scanner", [Some(Cls(Scanner)), Some(Cls(CTscanner)),
      Some(Cls(CylindricalPET)), Some(Cls(CPET)), Some(Cls(ECAT)), Some(Cls(ECATAccel)),
      Some(Cls(OPET)), Some(Cls(SPECThead))])
  {
    NameOfScanner(); NameOfCTscanner(); NameOfCylindricalPET(); NameOfCPET(); NameOfECAT();
    NameOfECATAccel(); NameOfOPET(); NameOfSPECThead();
  }

  /** `Geometry.choose_subclass` changes field `scanner` whatever the name. */
  lemma GeometryScannerNeverUnchanged()
    ensures forall s :: ChooseTable(Geometry, "scanner", s) != Unchanged
  {
  }

  /** `Geometry.choose_subclass` chooses a variant for field `scanner` only by a listed name. */
  lemma GeometryScannerChoosesOnlyListed()
    ensures forall s :: ChooseTable(Geometry, "scanner", s).Chosen? ==>
      s in ["Scanner", "CTscanner", "CylindricalPET", "CPET", "ECAT", "ECATAccel", "OPET",
        "SPECThead"]
  {
  }

  /** The variants of `Geometry.scanner` are chosen by their names; every other name clears the
      field. */
  lemma GeometryScannerVariants()
    ensures SlotChoices(Geometry, "scanner", Corrected(Geometry, "scanner", GeometryInputType("scanner")))
  {
    GeometryScannerChoosesAll();
    GeometryScannerNeverUnchanged();
    GeometryScannerChoosesOnlyListed();
    GeometryScannerVariantNames();
  }

  /** The names of the variants of `Geometry.phantom`, in the order `input_type` lists them. */
  lemma GeometryPhantomVariantNames()
    ensures VariantNames([Some(Cls(Volume)), Some(Cls(VoxelizedPhantom))])
      == ["Volume", "VoxelizedPhantom"]
  {
    NameOfVolume(); NameOfVoxelizedPhantom();
  }

  /** `Geometry.choose_subclass` chooses each variant of `Geometry.phantom` by its name. */
  lemma GeometryPhantomChoosesAll()
    ensures ChoosesAll(Geometry, "phantom", [Some(Cls(Volume)), Some(Cls(VoxelizedPhantom))])
  {
    NameOfVolume(); NameOfVoxelizedPhantom();
  }

  /** `Geometry.choose_subclass` changes field `phantom` whatever the name. */
  lemma GeometryPhantomNeverUnchanged()
    ensures forall s :: ChooseTable(Geometry, "phantom", s) != Unchanged
  {
  }

  /** `Geometry.choose_subclass` chooses a variant for field `phantom` only by a listed name. */
  lemma GeometryPhantomChoosesOnlyListed()
    ensures forall s :: ChooseTable(Geometry, "phantom", s).Chosen? ==>
      s in ["Volume", "VoxelizedPhantom"]
  {
  }

  /** The variants of `Geometry.phantom` are chosen by their names; every other name clears the
      field. */
  lemma GeometryPhantomVariants()
    ensures SlotChoices(Geometry, "phantom", Corrected(Geometry, "phantom", GeometryInputType("phantom")))
  {
    GeometryPhantomChoosesAll();
    GeometryPhantomNeverUnchanged();
    GeometryPhantomChoosesOnlyListed();
    GeometryPhantomVariantNames();
  }

  /** `Geometry.choose_subclass` makes, for every key and name, the choice `Geometry.input_type`
      calls for. */
  lemma GeometryChoiceAgrees(key: string, subclass: string)
    ensures ChooseTable(Geometry, key, subclass) == ChoiceIn(Corrected(Geometry, key, GeometryInputType(key)), subclass)
  {
    if key == "scanner" {
      GeometryScannerVariants();
      SlotAgreement(Geometry, key, Corrected(Geometry, key, GeometryInputType(key)), subclass);
    } else if key == "phantom" {
      GeometryPhantomVariants();
      SlotAgreement(Geometry, key, Corrected(Geometry, key, GeometryInputType(key)), subclass);
    }
  }

  /** The names of the variants of `Volume.shape`, in the order `input_type` lists them. */
  lemma VolumeShapeVariantNames()
    ensures VariantNames([Some(Cls(Box)), Some(Cls(Sphere)), Some(Cls(Cylinder)), Some(Cls(Cone)),
      Some(Cls(Ellipsoid)), Some(Cls(EllipticalTube)), Some(Cls(Tessellated)),
      Some(Cls(TetMeshBox)), Some(Cls(TRPD)), Some(Cls(Hexagone)), Some(Cls(Wedge))])
      == ["Box", "Sphere", "Cylinder", "Cone", "Ellipsoid", "EllipticalTube", "Tessellated",
        "TetMeshBox", "TRPD", "Hexagone", "Wedge"]
  {
    var variants := [Some(Cls(Box)), Some(Cls(Sphere)), Some(Cls(Cylinder)), Some(Cls(Cone)),
      Some(Cls(Ellipsoid)), Some(Cls(EllipticalTube)), Some(Cls(Tessellated)),
      Some(Cls(TetMeshBox)), Some(Cls(TRPD)), Some(Cls(Hexagone)), Some(Cls(Wedge))];
    VolumeShapeVariantNamesAt(variants);
  }

  /** A list that holds the variants of `Volume.shape` entry by entry has their names. */
  lemma VolumeShapeVariantNamesAt(variants: seq<Option<TypeName>>)
    requires |variants| == 11
    requires variants[0] == Some(Cls(Box)) && variants[1] == Some(Cls(Sphere)) &&
      variants[2] == Some(Cls(Cylinder)) && variants[3] == Some(Cls(Cone)) &&
      variants[4] == Some(Cls(Ellipsoid)) && variants[5] == Some(Cls(EllipticalTube)) &&
      variants[6] == Some(Cls(Tessellated)) && variants[7] == Some(Cls(TetMeshBox)) &&
      variants[8] == Some(Cls(TRPD)) && variants[9] == Some(Cls(Hexagone)) &&
      variants[10] == Some(Cls(Wedge))
    ensures VariantNames(variants) == ["Box", "Sphere", "Cylinder", "Cone", "Ellipsoid",
      "EllipticalTube", "Tessellated", "TetMeshBox", "TRPD", "Hexagone", "Wedge"]
  {
    NameOfBox(); NameOfSphere(); NameOfCylinder(); NameOfCone(); NameOfEllipsoid();
    NameOfEllipticalTube(); NameOfTessellated(); NameOfTetMeshBox(); NameOfTRPD(); NameOfHexagone();
    NameOfWedge();
    VariantNamesAllListed(variants);
  }

  /** `Volume.choose_subclass` chooses each variant of `Volume.shape` by its name. */
  lemma VolumeShapeChoosesAll()
    ensures ChoosesAll(Volume, "shape", [Some(Cls(Box)), Some(Cls(Sphere)), Some(Cls(Cylinder)),
      Some(Cls(Cone)), Some(Cls(Ellipsoid)), Some(Cls(EllipticalTube)), Some(Cls(Tessellated)),
      Some(Cls(TetMeshBox)), Some(Cls(TRPD)), Some(Cls(Hexagone)), Some(Cls(Wedge))])
  {
    NameOfBox(); NameOfSphere(); NameOfCylinder(); NameOfCone(); NameOfEllipsoid();
    NameOfEllipticalTube(); NameOfTessellated(); NameOfTetMeshBox(); NameOfTRPD(); NameOfHexagone();
    NameOfWedge();
    VolumeShapeChoosesFront();
    VolumeShapeChoosesBack();
  }

  /** `Volume.choose_subclass('shape', name)` for the names `Box`, `Sphere`, `Cylinder`, `Cone`, `Ellipsoid`. */
  lemma VolumeShapeChoosesFront()
    ensures ChooseTable(Volume, "shape", "Box") == Chosen(Cls(Box))
    ensures ChooseTable(Volume, "shape", "Sphere") == Chosen(Cls(Sphere))
    ensures ChooseTable(Volume, "shape", "Cylinder") == Chosen(Cls(Cylinder))
    ensures ChooseTable(Volume, "shape", "Cone") == Chosen(Cls(Cone))
    ensures ChooseTable(Volume, "shape", "Ellipsoid") == Chosen(Cls(Ellipsoid))
  {
  }

  /** `Volume.choose_subclass('shape', name)` for the names `EllipticalTube`, `Tessellated`, `TetMeshBox`, `TRPD`, `Hexagone`, `Wedge`. */
  lemma VolumeShapeChoosesBack()
    ensures ChooseTable(Volume, "shape", "EllipticalTube") == Chosen(Cls(EllipticalTube))
    ensures ChooseTable(Volume, "shape", "Tessellated") == Chosen(Cls(Tessellated))
    ensures ChooseTable(Volume, "shape", "TetMeshBox") == Chosen(Cls(TetMeshBox))
    ensures ChooseTable(Volume, "shape", "TRPD") == Chosen(Cls(TRPD))
    ensures ChooseTable(Volume, "shape", "Hexagone") == Chosen(Cls(Hexagone))
    ensures ChooseTable(Volume, "shape", "Wedge") == Chosen(Cls(Wedge))
  {
  }

  /** `Volume.choose_subclass` changes field `shape` whatever the name. */
  lemma VolumeShapeNeverUnchanged()
    ensures forall s :: ChooseTable(Volume, "shape", s) != Unchanged
  {
  }

  /** `Volume.choose_subclass` chooses a variant for field `shape` only by a listed name. */
  lemma VolumeShapeChoosesOnlyListed()
    ensures forall s :: ChooseTable(Volume, "shape", s).Chosen? ==>
      s in ["Box", "Sphere", "Cylinder", "Cone", "Ellipsoid", "EllipticalTube", "Tessellated",
        "TetMeshBox", "TRPD", "Hexagone", "Wedge"]
  {
  }

  /** The variants of `Volume.shape` are chosen by their names; every other name clears the
      field. */
  lemma VolumeShapeVariants()
    ensures SlotChoices(Volume, "shape", Corrected(Volume, "shape", VolumeInputType("shape")))
  {
    VolumeShapeChoosesAll();
    VolumeShapeNeverUnchanged();
    VolumeShapeChoosesOnlyListed();
    VolumeShapeVariantNames();
  }

  /** `Volume.choose_subclass` makes, for every key and name, the choice `Volume.input_type`
      calls for. */
  lemma VolumeChoiceAgrees(key: string, subclass: string)
    ensures ChooseTable(Volume, key, subclass) == ChoiceIn(Corrected(Volume, key, VolumeInputType(key)), subclass)
  {
    if key == "shape" {
      VolumeShapeVariants();
      SlotAgreement(Volume, key, Corrected(Volume, key, VolumeInputType(key)), subclass);
    }
  }

  /** The names of the variants of `Blurring.law`, in the order `input_type` lists them. */
  lemma BlurringLawVariantNames()
    ensures VariantNames([Some(Cls(InverseSquareLaw)), Some(Cls(LinearLaw))])
      == ["InverseSquareLaw", "LinearLaw"]
  {
    NameOfInverseSquareLaw(); NameOfLinearLaw();
  }

  /** `Blurring.choose_subclass` chooses each variant of `Blurring.law` by its name. */
  lemma BlurringLawChoosesAll()
    ensures ChoosesAll(Blurring, "law", [Some(Cls(InverseSquareLaw)), Some(Cls(LinearLaw))])
  {
    NameOfInverseSquareLaw(); NameOfLinearLaw();
  }

  /** `Blurring.choose_subclass` changes field `law` whatever the name. */
  lemma BlurringLawNeverUnchanged()
    ensures forall s :: ChooseTable(Blurring, "law", s) != Unchanged
  {
  }

  /** `Blurring.choose_subclass` chooses a variant for field `law` only by a listed name. */
  lemma BlurringLawChoosesOnlyListed()
    ensures forall s :: ChooseTable(Blurring, "law", s).Chosen? ==>
      s in ["InverseSquareLaw", "LinearLaw"]
  {
  }

  /** The variants of `Blurring.law` are chosen by their names; every other name clears the
      field. */
  lemma BlurringLawVariants()
    ensures SlotChoices(Blurring, "law", Corrected(Blurring, "law", BlurringInputType("law")))
  {
    BlurringLawChoosesAll();
    BlurringLawNeverUnchanged();
    BlurringLawChoosesOnlyListed();
    BlurringLawVariantNames();
  }

  /** `Blurring.choose_subclass` makes, for every key and name, the choice `Blurring.input_type`
      calls for. */
  lemma BlurringChoiceAgrees(key: string, subclass: string)
    ensures ChooseTable(Blurring, key, subclass) == ChoiceIn(Corrected(Blurring, key, BlurringInputType(key)), subclass)
  {
    if key == "law" {
      BlurringLawVariants();
      SlotAgreement(Blurring, key, Corrected(Blurring, key, BlurringInputType(key)), subclass);
    }
  }

  /** The names of the variants of `QuantumEfficiency.unique_qe`, in the order `input_type` lists them. */
  lemma QuantumEfficiencyUniqueQeVariantNames()
    ensures VariantNames([Some(Prim(TNumber)), Some(Prim(TString))])
      == ["number", "string"]
  {
  }

  /** `QuantumEfficiency.choose_subclass` chooses each variant of `QuantumEfficiency.unique_qe` by its name. */
  lemma QuantumEfficiencyUniqueQeChoosesAll()
    ensures ChoosesAll(QuantumEfficiency, "unique_qe", [Some(Prim(TNumber)), Some(Prim(TString))])
  {
  }

  /** `QuantumEfficiency.choose_subclass` changes field `unique_qe` whatever the name. */
  lemma QuantumEfficiencyUniqueQeNeverUnchanged()
    ensures forall s :: ChooseTable(QuantumEfficiency, "unique_qe", s) != Unchanged
  {
  }

  /** `QuantumEfficiency.choose_subclass` chooses a variant for field `unique_qe` only by a listed name. */
  lemma QuantumEfficiencyUniqueQeChoosesOnlyListed()
    ensures forall s :: ChooseTable(QuantumEfficiency, "unique_qe", s).Chosen? ==>
      s in ["number", "string"]
  {
  }

  /** The variants of `QuantumEfficiency.unique_qe` are chosen by their names; every other name clears the
      field. */
  lemma QuantumEfficiencyUniqueQeVariants()
    ensures SlotChoices(QuantumEfficiency, "unique_qe", Corrected(QuantumEfficiency, "unique_qe", QuantumEfficiencyInputType("unique_qe")))
  {
    QuantumEfficiencyUniqueQeChoosesAll();
    QuantumEfficiencyUniqueQeNeverUnchanged();
    QuantumEfficiencyUniqueQeChoosesOnlyListed();
    QuantumEfficiencyUniqueQeVariantNames();
  }

  /** `QuantumEfficiency.choose_subclass` makes, for every key and name, the choice `QuantumEfficiency.input_type`
      calls for. */
  lemma QuantumEfficiencyChoiceAgrees(key: string, subclass: string)
    ensures ChooseTable(QuantumEfficiency, key, subclass) == ChoiceIn(Corrected(QuantumEfficiency, key, QuantumEfficiencyInputType(key)), subclass)
  {
    if key == "unique_qe" {
      QuantumEfficiencyUniqueQeVariants();
      SlotAgreement(QuantumEfficiency, key, Corrected(QuantumEfficiency, key, QuantumEfficiencyInputType(key)), subclass);
    }
  }

  /** The names of the variants of `Noise.deltaT_distribution`, in the order `input_type` lists them. */
  lemma NoiseDeltaTDistributionVariantNames()
    ensures VariantNames([Some(Cls(Flat)), Some(Cls(Gaussian)), Some(Cls(Exponential)),
      Some(Cls(Manual)), Some(Cls(File))])
      == ["Flat", "Gaussian", "Exponential", "Manual", "File"]
  {
    NameOfFlat(); NameOfGaussian(); NameOfExponential(); NameOfManual(); NameOfFile();
  }

  /** `Noise.choose_subclass` chooses each variant of `Noise.deltaT_distribution` by its name. */
  lemma NoiseDeltaTDistributionChoosesAll()
    ensures ChoosesAll(Noise, "deltaT_distribution", [Some(Cls(Flat)), Some(Cls(Gaussian)),
      Some(Cls(Exponential)), Some(Cls(Manual)), Some(Cls(File))])
  {
    NameOfFlat(); NameOfGaussian(); NameOfExponential(); NameOfManual(); NameOfFile();
  }

  /** `Noise.choose_subclass` changes field `deltaT_distribution` whatever the name. */
  lemma NoiseDeltaTDistributionNeverUnchanged()
    ensures forall s :: ChooseTable(Noise, "deltaT_distribution", s) != Unchanged
  {
  }

  /** `Noise.choose_subclass` chooses a variant for field `deltaT_distribution` only by a listed name. */
  lemma NoiseDeltaTDistributionChoosesOnlyListed()
    ensures forall s :: ChooseTable(Noise, "deltaT_distribution", s).Chosen? ==>
      s in ["Flat", "Gaussian", "Exponential", "Manual", "File"]
  {
  }

  /** The variants of `Noise.deltaT_distribution` are chosen by their names; every other name clears the
      field. */
  lemma NoiseDeltaTDistributionVariants()
    ensures SlotChoices(Noise, "deltaT_distribution", Corrected(Noise, "deltaT_distribution", NoiseInputType("deltaT_distribution")))
  {
    NoiseDeltaTDistributionChoosesAll();
    NoiseDeltaTDistributionNeverUnchanged();
    NoiseDeltaTDistributionChoosesOnlyListed();
    NoiseDeltaTDistributionVariantNames();
  }

  /** The names of the variants of `Noise.energy_distribution`, in the order `input_type` lists them. */
  lemma NoiseEnergyDistributionVariantNames()
    ensures VariantNames([Some(Cls(Flat)), Some(Cls(Gaussian)), Some(Cls(Exponential)),
      Some(Cls(Manual)), Some(Cls(File))])
      == ["Flat", "Gaussian", "Exponential", "Manual", "File"]
  {
    NameOfFlat(); NameOfGaussian(); NameOfExponential(); NameOfManual(); NameOfFile();
  }

  /** `Noise.choose_subclass` chooses each variant of `Noise.energy_distribution` by its name. */
  lemma NoiseEnergyDistributionChoosesAll()
    ensures ChoosesAll(Noise, "energy_distribution", [Some(Cls(Flat)), Some(Cls(Gaussian)),
      Some(Cls(Exponential)), Some(Cls(Manual)), Some(Cls(File))])
  {
    NameOfFlat(); NameOfGaussian(); NameOfExponential(); NameOfManual(); NameOfFile();
  }

  /** `Noise.choose_subclass` changes field `energy_distribution` whatever the name. */
  lemma NoiseEnergyDistributionNeverUnchanged()
    ensures forall s :: ChooseTable(Noise, "energy_distribution", s) != Unchanged
  {
  }

  /** `Noise.choose_subclass` chooses a variant for field `energy_distribution` only by a listed name. */
  lemma NoiseEnergyDistributionChoosesOnlyListed()
    ensures forall s :: ChooseTable(Noise, "energy_distribution", s).Chosen? ==>
      s in ["Flat", "Gaussian", "Exponential", "Manual", "File"]
  {
  }

  /** The variants of `Noise.energy_distribution` are chosen by their names; every other name clears the
      field. */
  lemma NoiseEnergyDistributionVariants()
    ensures SlotChoices(Noise, "energy_distribution", Corrected(Noise, "energy_distribution", NoiseInputType("energy_distribution")))
  {
    NoiseEnergyDistributionChoosesAll();
    NoiseEnergyDistributionNeverUnchanged();
    NoiseEnergyDistributionChoosesOnlyListed();
    NoiseEnergyDistributionVariantNames();
  }

  /** `Noise.choose_subclass` makes, for every key and name, the choice `Noise.input_type`
      calls for. */
  lemma NoiseChoiceAgrees(key: string, subclass: string)
    ensures ChooseTable(Noise, key, subclass) == ChoiceIn(Corrected(Noise, key, NoiseInputType(key)), subclass)
  {
    if key == "deltaT_distribution" {
      NoiseDeltaTDistributionVariants();
      SlotAgreement(Noise, key, Corrected(Noise, key, NoiseInputType(key)), subclass);
    } else if key == "energy_distribution" {
      NoiseEnergyDistributionVariants();
      SlotAgreement(Noise, key, Corrected(Noise, key, NoiseInputType(key)), subclass);
    }
  }

  /** The names of the variants of `LocalEfficiency.Level1`, in the order `input_type` lists them. */
  lemma LocalEfficiencyLevel1VariantNames()
    ensures VariantNames([None, Some(Cls(Flat)), Some(Cls(Gaussian)), Some(Cls(Exponential)),
      Some(Cls(Manual)), Some(Cls(File))])
      == ["Flat", "Gaussian", "Exponential", "Manual", "File"]
  {
    NameOfFlat(); NameOfGaussian(); NameOfExponential(); NameOfManual(); NameOfFile();
  }

  /** `LocalEfficiency.choose_subclass` chooses each variant of `LocalEfficiency.Level1` by its name. */
  lemma LocalEfficiencyLevel1ChoosesAll()
    ensures ChoosesAll(LocalEfficiency, "Level1", [None, Some(Cls(Flat)), Some(Cls(Gaussian)),
      Some(Cls(Exponential)), Some(Cls(Manual)), Some(Cls(File))])
  {
    NameOfFlat(); NameOfGaussian(); NameOfExponential(); NameOfManual(); NameOfFile();
  }

  /** `LocalEfficiency.choose_subclass` changes field `Level1` whatever the name. */
  lemma LocalEfficiencyLevel1NeverUnchanged()
    ensures forall s :: ChooseTable(LocalEfficiency, "Level1", s) != Unchanged
  {
  }

  /** `LocalEfficiency.choose_subclass` chooses a variant for field `Level1` only by a listed name. */
  lemma LocalEfficiencyLevel1ChoosesOnlyListed()
    ensures forall s :: ChooseTable(LocalEfficiency, "Level1", s).Chosen? ==>
      s in ["Flat", "Gaussian", "Exponential", "Manual", "File"]
  {
  }

  /** The variants of `LocalEfficiency.Level1` are chosen by their names; every other name clears the
      field. */
  lemma LocalEfficiencyLevel1Variants()
    ensures SlotChoices(LocalEfficiency, "Level1", Corrected(LocalEfficiency, "Level1", LocalEfficiencyInputType("Level1")))
  {
    LocalEfficiencyLevel1ChoosesAll();
    LocalEfficiencyLevel1NeverUnchanged();
    LocalEfficiencyLevel1ChoosesOnlyListed();
    LocalEfficiencyLevel1VariantNames();
  }

  /** The names of the variants of `LocalEfficiency.Level2`, in the order `input_type` lists them. */
  lemma LocalEfficiencyLevel2VariantNames()
    ensures VariantNames([None, Some(Cls(Flat)), Some(Cls(Gaussian)), Some(Cls(Exponential)),
      Some(Cls(Manual)), Some(Cls(File))])
      == ["Flat", "Gaussian", "Exponential", "Manual", "File"]
  {
    NameOfFlat(); NameOfGaussian(); NameOfExponential(); NameOfManual(); NameOfFile();
  }

  /** `LocalEfficiency.choose_subclass` chooses each variant of `LocalEfficiency.Level2` by its name. */
  lemma LocalEfficiencyLevel2ChoosesAll()
    ensures ChoosesAll(LocalEfficiency, "Level2", [None, Some(Cls(Flat)), Some(Cls(Gaussian)),
      Some(Cls(Exponential)), Some(Cls(Manual)), Some(Cls(File))])
  {
    NameOfFlat(); NameOfGaussian(); NameOfExponential(); NameOfManual(); NameOfFile();
  }

  /** `LocalEfficiency.choose_subclass` changes field `Level2` whatever the name. */
  lemma LocalEfficiencyLevel2NeverUnchanged()
    ensures forall s :: ChooseTable(LocalEfficiency, "Level2", s) != Unchanged
  {
  }

  /** `LocalEfficiency.choose_subclass` chooses a variant for field `Level2` only by a listed name. */
  lemma LocalEfficiencyLevel2ChoosesOnlyListed()
    ensures forall s :: ChooseTable(LocalEfficiency, "Level2", s).Chosen? ==>
      s in ["Flat", "Gaussian", "Exponential", "Manual", "File"]
  {
  }

  /** The variants of `LocalEfficiency.Level2` are chosen by their names; every other name clears the
      field. */
  lemma LocalEfficiencyLevel2Variants()
    ensures SlotChoices(LocalEfficiency, "Level2", Corrected(LocalEfficiency, "Level2", LocalEfficiencyInputType("Level2")))
  {
    LocalEfficiencyLevel2ChoosesAll();
    LocalEfficiencyLevel2NeverUnchanged();
    LocalEfficiencyLevel2ChoosesOnlyListed();
    LocalEfficiencyLevel2VariantNames();
  }

  /** `LocalEfficiency.choose_subclass` makes, for every key and name, the choice `LocalEfficiency.input_type`
      calls for. */
  lemma LocalEfficiencyChoiceAgrees(key: string, subclass: string)
    ensures ChooseTable(LocalEfficiency, key, subclass) == ChoiceIn(Corrected(LocalEfficiency, key, LocalEfficiencyInputType(key)), subclass)
  {
    if key == "Level1" {
      LocalEfficiencyLevel1Variants();
      SlotAgreement(LocalEfficiency, key, Corrected(LocalEfficiency, key, LocalEfficiencyInputType(key)), subclass);
    } else if key == "Level2" {
      LocalEfficiencyLevel2Variants();
      SlotAgreement(LocalEfficiency, key, Corrected(LocalEfficiency, key, LocalEfficiencyInputType(key)), subclass);
    }
  }

  /** The names of the variants of `ChooseSource.choose_source`, in the order `input_type` lists them. */
  lemma ChooseSourceChooseSourceVariantNames()
    ensures VariantNames([Some(Cls(Source)), Some(Cls(VoxelizedSource))])
      == ["Source", "VoxelizedSource"]
  {
    NameOfSource(); NameOfVoxelizedSource();
  }

  /** `ChooseSource.choose_subclass` chooses each variant of `ChooseSource.choose_source` by its name. */
  lemma ChooseSourceChooseSourceChoosesAll()
    ensures ChoosesAll(ChooseSource, "choose_source", [Some(Cls(Source)),
      Some(Cls(VoxelizedSource))])
  {
    NameOfSource(); NameOfVoxelizedSource();
  }

  /** `ChooseSource.choose_subclass` changes field `choose_source` whatever the name. */
  lemma ChooseSourceChooseSourceNeverUnchanged()
    ensures forall s :: ChooseTable(ChooseSource, "choose_source", s) != Unchanged
  {
  }

  /** `ChooseSource.choose_subclass` chooses a variant for field `choose_source` only by a listed name. */
  lemma ChooseSourceChooseSourceChoosesOnlyListed()
    ensures forall s :: ChooseTable(ChooseSource, "choose_source", s).Chosen? ==>
      s in ["Source", "VoxelizedSource"]
  {
  }

  /** The variants of `ChooseSource.choose_source` are chosen by their names; every other name clears the
      field. */
  lemma ChooseSourceChooseSourceVariants()
    ensures SlotChoices(ChooseSource, "choose_source", Corrected(ChooseSource, "choose_source", ChooseSourceInputType("choose_source")))
  {
    ChooseSourceChooseSourceChoosesAll();
    ChooseSourceChooseSourceNeverUnchanged();
    ChooseSourceChooseSourceChoosesOnlyListed();
    ChooseSourceChooseSourceVariantNames();
  }

  /** `ChooseSource.choose_subclass` makes, for every key and name, the choice `ChooseSource.input_type`
      calls for. */
  lemma ChooseSourceChoiceAgrees(key: string, subclass: string)
    ensures ChooseTable(ChooseSource, key, subclass) == ChoiceIn(Corrected(ChooseSource, key, ChooseSourceInputType(key)), subclass)
  {
    if key == "choose_source" {
      ChooseSourceChooseSourceVariants();
      SlotAgreement(ChooseSource, key, Corrected(ChooseSource, key, ChooseSourceInputType(key)), subclass);
    }
  }

  /** The names of the variants of `VoxelizedSource.insert_translator`, in the order `input_type` lists them. */
  lemma VoxelizedSourceInsertTranslatorVariantNames()
    ensures VariantNames([Some(Cls(LinearTranslator)), Some(Cls(RangeTranslator))])
      == ["LinearTranslator", "RangeTranslator"]
  {
    NameOfLinearTranslator(); NameOfRangeTranslator();
  }

  /** `VoxelizedSource.choose_subclass` chooses each variant of `VoxelizedSource.insert_translator` by its name. */
  lemma VoxelizedSourceInsertTranslatorChoosesAll()
    ensures ChoosesAll(VoxelizedSource, "insert_translator", [Some(Cls(LinearTranslator)),
      Some(Cls(RangeTranslator))])
  {
    NameOfLinearTranslator(); NameOfRangeTranslator();
  }

  /** `VoxelizedSource.choose_subclass` changes field `insert_translator` whatever the name. */
  lemma VoxelizedSourceInsertTranslatorNeverUnchanged()
    ensures forall s :: ChooseTable(VoxelizedSource, "insert_translator", s) != Unchanged
  {
  }

  /** `VoxelizedSource.choose_subclass` chooses a variant for field `insert_translator` only by a listed name. */
  lemma VoxelizedSourceInsertTranslatorChoosesOnlyListed()
    ensures forall s :: ChooseTable(VoxelizedSource, "insert_translator", s).Chosen? ==>
      s in ["LinearTranslator", "RangeTranslator"]
  {
  }

  /** The variants of `VoxelizedSource.insert_translator` are chosen by their names; every other name clears the
      field. */
  lemma VoxelizedSourceInsertTranslatorVariants()
    ensures SlotChoices(VoxelizedSource, "insert_translator", Corrected(VoxelizedSource, "insert_translator", VoxelizedSourceInputType("insert_translator")))
  {
    VoxelizedSourceInsertTranslatorChoosesAll();
    VoxelizedSourceInsertTranslatorNeverUnchanged();
    VoxelizedSourceInsertTranslatorChoosesOnlyListed();
    VoxelizedSourceInsertTranslatorVariantNames();
  }

  /** `VoxelizedSource.choose_subclass` makes, for every key and name, the choice `VoxelizedSource.input_type`
      calls for. */
  lemma VoxelizedSourceChoiceAgrees(key: string, subclass: string)
    ensures ChooseTable(VoxelizedSource, key, subclass) == ChoiceIn(Corrected(VoxelizedSource, key, VoxelizedSourceInputType(key)), subclass)
  {
    if key == "insert_translator" {
      VoxelizedSourceInsertTranslatorVariants();
      SlotAgreement(VoxelizedSource, key, Corrected(VoxelizedSource, key, VoxelizedSourceInputType(key)), subclass);
    }
  }

  /** The names of the variants of `Acquisition.time_slice`, in the order `input_type` lists them. */
  lemma AcquisitionTimeSliceVariantNames()
    ensures VariantNames([Some(Cls(Value)), Some(Prim(TString))])
      == ["Value", "string"]
  {
    NameOfValue();
  }

  /** `Acquisition.choose_subclass` chooses each variant of `Acquisition.time_slice` by its name. */
  lemma AcquisitionTimeSliceChoosesAll()
    ensures ChoosesAll(Acquisition, "time_slice", [Some(Cls(Value)), Some(Prim(TString))])
  {
    NameOfValue();
  }

  /** `Acquisition.choose_subclass` changes field `time_slice` whatever the name. */
  lemma AcquisitionTimeSliceNeverUnchanged()
    ensures forall s :: ChooseTable(Acquisition, "time_slice", s) != Unchanged
  {
  }

  /** `Acquisition.choose_subclass` chooses a variant for field `time_slice` only by a listed name. */
  lemma AcquisitionTimeSliceChoosesOnlyListed()
    ensures forall s :: ChooseTable(Acquisition, "time_slice", s).Chosen? ==>
      s in ["Value", "string"]
  {
  }

  /** The variants of `Acquisition.time_slice` are chosen by their names; every other name clears the
      field. */
  lemma AcquisitionTimeSliceVariants()
    ensures SlotChoices(Acquisition, "time_slice", Corrected(Acquisition, "time_slice", AcquisitionInputType("time_slice")))
  {
    AcquisitionTimeSliceChoosesAll();
    AcquisitionTimeSliceNeverUnchanged();
    AcquisitionTimeSliceChoosesOnlyListed();
    AcquisitionTimeSliceVariantNames();
  }

  /** The names of the variants of `Acquisition.engine_seed`, in the order `input_type` lists them. */
  lemma AcquisitionEngineSeedVariantNames()
    ensures VariantNames([Some(Prim(TNumber)), Some(Prim(TString))])
      == ["number", "string"]
  {
  }

  /** `Acquisition.choose_subclass` chooses each variant of `Acquisition.engine_seed` by its name. */
  lemma AcquisitionEngineSeedChoosesAll()
    ensures ChoosesAll(Acquisition, "engine_seed", [Some(Prim(TNumber)), Some(Prim(TString))])
  {
  }

  /** `Acquisition.choose_subclass` changes field `engine_seed` whatever the name. */
  lemma AcquisitionEngineSeedNeverUnchanged()
    ensures forall s :: ChooseTable(Acquisition, "engine_seed", s) != Unchanged
  {
  }

  /** `Acquisition.choose_subclass` chooses a variant for field `engine_seed` only by a listed name. */
  lemma AcquisitionEngineSeedChoosesOnlyListed()
    ensures forall s :: ChooseTable(Acquisition, "engine_seed", s).Chosen? ==>
      s in ["number", "string"]
  {
  }

  /** The variants of `Acquisition.engine_seed` are chosen by their names; every other name clears the
      field. */
  lemma AcquisitionEngineSeedVariants()
    ensures SlotChoices(Acquisition, "engine_seed", Corrected(Acquisition, "engine_seed", AcquisitionInputType("engine_seed")))
  {
    AcquisitionEngineSeedChoosesAll();
    AcquisitionEngineSeedNeverUnchanged();
    AcquisitionEngineSeedChoosesOnlyListed();
    AcquisitionEngineSeedVariantNames();
  }

  /** `Acquisition.choose_subclass` makes, for every key and name, the choice `Acquisition.input_type`
      calls for. */
  lemma AcquisitionChoiceAgrees(key: string, subclass: string)
    ensures ChooseTable(Acquisition, key, subclass) == ChoiceIn(Corrected(Acquisition, key, AcquisitionInputType(key)), subclass)
  {
    if key == "time_slice" {
      AcquisitionTimeSliceVariants();
      SlotAgreement(Acquisition, key, Corrected(Acquisition, key, AcquisitionInputType(key)), subclass);
    } else if key == "engine_seed" {
      AcquisitionEngineSeedVariants();
      SlotAgreement(Acquisition, key, Corrected(Acquisition, key, AcquisitionInputType(key)), subclass);
    }
  }
  /** For a class that has `choose_subclass`, its switches make exactly the choices its
      `input_type` calls for. */
  lemma ChooseTableIsSamChoice(c: ClassName, key: string, subclass: string)
    requires HasChooseSubclass(c)
    ensures ChooseTable(c, key, subclass) == SamChoice(c, key, subclass)
  {
    match c
    case Geometry => GeometryChoiceAgrees(key, subclass); InputTypeOfGeometry(key);
    case Volume => VolumeChoiceAgrees(key, subclass); InputTypeOfVolume(key);
    case Blurring => BlurringChoiceAgrees(key, subclass); InputTypeOfBlurring(key);
    case QuantumEfficiency => QuantumEfficiencyChoiceAgrees(key, subclass); InputTypeOfQuantumEfficiency(key);
    case Noise => NoiseChoiceAgrees(key, subclass); InputTypeOfNoise(key);
    case LocalEfficiency => LocalEfficiencyChoiceAgrees(key, subclass); InputTypeOfLocalEfficiency(key);
    case ChooseSource => ChooseSourceChoiceAgrees(key, subclass); InputTypeOfChooseSource(key);
    case VoxelizedSource => VoxelizedSourceChoiceAgrees(key, subclass); InputTypeOfVoxelizedSource(key);
    case Acquisition => AcquisitionChoiceAgrees(key, subclass); InputTypeOfAcquisition(key);
  }

  /** Every union field of a class that has `choose_subclass` is chosen by its variants' names. */
  lemma SlotFacts(c: ClassName, key: string)
    requires HasChooseSubclass(c) && IsUnionSlot(c, key)
    ensures SlotChoices(c, key, InputType(c, key))
  {
    match c
    case Geometry => InputTypeOfGeometry(key); GeometrySlotFacts(key);
    case Volume => InputTypeOfVolume(key); VolumeSlotFacts(key);
    case Blurring => InputTypeOfBlurring(key); BlurringSlotFacts(key);
    case QuantumEfficiency => InputTypeOfQuantumEfficiency(key); QuantumEfficiencySlotFacts(key);
    case Noise => InputTypeOfNoise(key); NoiseSlotFacts(key);
    case LocalEfficiency => InputTypeOfLocalEfficiency(key); LocalEfficiencySlotFacts(key);
    case ChooseSource => InputTypeOfChooseSource(key); ChooseSourceSlotFacts(key);
    case VoxelizedSource => InputTypeOfVoxelizedSource(key); VoxelizedSourceSlotFacts(key);
    case Acquisition => InputTypeOfAcquisition(key); AcquisitionSlotFacts(key);
  }

  /** The union fields of `Geometry` are `scanner`, `phantom`. */
  lemma GeometrySlotFacts(key: string)
    requires var d := Corrected(Geometry, key, GeometryInputType(key)); d.Some? && d.value.Union?
    ensures SlotChoices(Geometry, key, Corrected(Geometry, key, GeometryInputType(key)))
  {
    if key == "scanner" {
      GeometryScannerVariants();
    } else if key == "phantom" {
      GeometryPhantomVariants();
    }
  }

  /** The union fields of `Volume` are `shape`. */
  lemma VolumeSlotFacts(key: string)
    requires var d := Corrected(Volume, key, VolumeInputType(key)); d.Some? && d.value.Union?
    ensures SlotChoices(Volume, key, Corrected(Volume, key, VolumeInputType(key)))
  {
    if key == "shape" {
      VolumeShapeVariants();
    }
  }

  /** The union fields of `Blurring` are `law`. */
  lemma BlurringSlotFacts(key: string)
    requires var d := Corrected(Blurring, key, BlurringInputType(key)); d.Some? && d.value.Union?
    ensures SlotChoices(Blurring, key, Corrected(Blurring, key, BlurringInputType(key)))
  {
    if key == "law" {
      BlurringLawVariants();
    }
  }

  /** The union fields of `QuantumEfficiency` are `unique_qe`. */
  lemma QuantumEfficiencySlotFacts(key: string)
    requires var d := Corrected(QuantumEfficiency, key, QuantumEfficiencyInputType(key)); d.Some? && d.value.Union?
    ensures SlotChoices(QuantumEfficiency, key, Corrected(QuantumEfficiency, key, QuantumEfficiencyInputType(key)))
  {
    if key == "unique_qe" {
      QuantumEfficiencyUniqueQeVariants();
    }
  }

  /** The union fields of `Noise` are `deltaT_distribution`, `energy_distribution`. */
  lemma NoiseSlotFacts(key: string)
    requires var d := Corrected(Noise, key, NoiseInputType(key)); d.Some? && d.value.Union?
    ensures SlotChoices(Noise, key, Corrected(Noise, key, NoiseInputType(key)))
  {
    if key == "deltaT_distribution" {
      NoiseDeltaTDistributionVariants();
    } else if key == "energy_distribution" {
      NoiseEnergyDistributionVariants();
    }
  }

  /** The union fields of `LocalEfficiency` are `Level1`, `Level2`. */
  lemma LocalEfficiencySlotFacts(key: string)
    requires var d := Corrected(LocalEfficiency, key, LocalEfficiencyInputType(key)); d.Some? && d.value.Union?
    ensures SlotChoices(LocalEfficiency, key, Corrected(LocalEfficiency, key, LocalEfficiencyInputType(key)))
  {
    if key == "Level1" {
      LocalEfficiencyLevel1Variants();
    } else if key == "Level2" {
      LocalEfficiencyLevel2Variants();
    }
  }

  /** The union fields of `ChooseSource` are `choose_source`. */
  lemma ChooseSourceSlotFacts(key: string)
    requires var d := Corrected(ChooseSource, key, ChooseSourceInputType(key)); d.Some? && d.value.Union?
    ensures SlotChoices(ChooseSource, key, Corrected(ChooseSource, key, ChooseSourceInputType(key)))
  {
    if key == "choose_source" {
      ChooseSourceChooseSourceVariants();
    }
  }

  /** The union fields of `VoxelizedSource` are `insert_translator`. */
  lemma VoxelizedSourceSlotFacts(key: string)
    requires var d := Corrected(VoxelizedSource, key, VoxelizedSourceInputType(key)); d.Some? && d.value.Union?
    ensures SlotChoices(VoxelizedSource, key, Corrected(VoxelizedSource, key, VoxelizedSourceInputType(key)))
  {
    if key == "insert_translator" {
      VoxelizedSourceInsertTranslatorVariants();
    }
  }

  /** The union fields of `Acquisition` are `time_slice`, `engine_seed`. */
  lemma AcquisitionSlotFacts(key: string)
    requires var d := Corrected(Acquisition, key, AcquisitionInputType(key)); d.Some? && d.value.Union?
    ensures SlotChoices(Acquisition, key, Corrected(Acquisition, key, AcquisitionInputType(key)))
  {
    if key == "time_slice" {
      AcquisitionTimeSliceVariants();
    } else if key == "engine_seed" {
      AcquisitionEngineSeedVariants();
    }
  }
  /** `this[key] = new X()` for each class `X` that a `choose_subclass` stores: the field becomes
      a fresh default of `X` and no other field changes. */
  method PutNewScanner(n: Node, key: string)
    modifies n
    ensures Applied(Chosen(Cls(Scanner)), key, old(n.fields), n.fields)
    ensures fresh(NodeAndChildren(n.fields[key].node)) && DefaultNode(n.fields[key].node, Scanner)
  {
    var v := NewScanner();
    n.fields := n.fields[key := Ref(v)];
  }

  method PutNewCTscanner(n: Node, key: string)
    modifies n
    ensures Applied(Chosen(Cls(CTscanner)), key, old(n.fields), n.fields)
    ensures fresh(NodeAndChildren(n.fields[key].node)) && DefaultNode(n.fields[key].node, CTscanner)
  {
    var v := NewCTscanner();
    n.fields := n.fields[key := Ref(v)];
  }

  method PutNewCylindricalPET(n: Node, key: string)
    modifies n
    ensures Applied(Chosen(Cls(CylindricalPET)), key, old(n.fields), n.fields)
    ensures fresh(NodeAndChildren(n.fields[key].node)) && DefaultNode(n.fields[key].node, CylindricalPET)
  {
    var v := NewCylindricalPET();
    n.fields := n.fields[key := Ref(v)];
  }

  method PutNewCPET(n: Node, key: string)
    modifies n
    ensures Applied(Chosen(Cls(CPET)), key, old(n.fields), n.fields)
    ensures fresh(NodeAndChildren(n.fields[key].node)) && DefaultNode(n.fields[key].node, CPET)
  {
    var v := NewCPET();
    n.fields := n.fields[key := Ref(v)];
  }

  method PutNewECAT(n: Node, key: string)
    modifies n
    ensures Applied(Chosen(Cls(ECAT)), key, old(n.fields), n.fields)
    ensures fresh(NodeAndChildren(n.fields[key].node)) && DefaultNode(n.fields[key].node, ECAT)
  {
    var v := NewECAT();
    n.fields := n.fields[key := Ref(v)];
  }

  method PutNewECATAccel(n: Node, key: string)
    modifies n
    ensures Applied(Chosen(Cls(ECATAccel)), key, old(n.fields), n.fields)
    ensures fresh(NodeAndChildren(n.fields[key].node)) && DefaultNode(n.fields[key].node, ECATAccel)
  {
    var v := NewECATAccel();
    n.fields := n.fields[key := Ref(v)];
  }

  method PutNewOPET(n: Node, key: string)
    modifies n
    ensures Applied(Chosen(Cls(OPET)), key, old(n.fields), n.fields)
    ensures fresh(NodeAndChildren(n.fields[key].node)) && DefaultNode(n.fields[key].node, OPET)
  {
    var v := NewOPET();
    n.fields := n.fields[key := Ref(v)];
  }

  method PutNewSPECThead(n: Node, key: string)
    modifies n
    ensures Applied(Chosen(Cls(SPECThead)), key, old(n.fields), n.fields)
    ensures fresh(NodeAndChildren(n.fields[key].node)) && DefaultNode(n.fields[key].node, SPECThead)
  {
    var v := NewSPECThead();
    n.fields := n.fields[key := Ref(v)];
  }

  method PutNewVolume(n: Node, key: string)
    modifies n
    ensures Applied(Chosen(Cls(Volume)), key, old(n.fields), n.fields)
    ensures fresh(NodeAndChildren(n.fields[key].node)) && DefaultNode(n.fields[key].node, Volume)
  {
    var v := NewVolume();
    n.fields := n.fields[key := Ref(v)];
  }

  method PutNewVoxelizedPhantom(n: Node, key: string)
    modifies n
    ensures Applied(Chosen(Cls(VoxelizedPhantom)), key, old(n.fields), n.fields)
    ensures fresh(NodeAndChildren(n.fields[key].node)) && DefaultNode(n.fields[key].node, VoxelizedPhantom)
  {
    var v := NewVoxelizedPhantom();
    n.fields := n.fields[key := Ref(v)];
  }

  method PutNewBox(n: Node, key: string)
    modifies n
    ensures Applied(Chosen(Cls(Box)), key, old(n.fields), n.fields)
    ensures fresh(NodeAndChildren(n.fields[key].node)) && DefaultNode(n.fields[key].node, Box)
  {
    var v := NewBox();
    n.fields := n.fields[key := Ref(v)];
  }

  method PutNewSphere(n: Node, key: string)
    modifies n
    ensures Applied(Chosen(Cls(Sphere)), key, old(n.fields), n.fields)
    ensures fresh(NodeAndChildren(n.fields[key].node)) && DefaultNode(n.fields[key].node, Sphere)
  {
    var v := NewSphere();
    n.fields := n.fields[key := Ref(v)];
  }

  method PutNewCylinder(n: Node, key: string)
    modifies n
    ensures Applied(Chosen(Cls(Cylinder)), key, old(n.fields), n.fields)
    ensures fresh(NodeAndChildren(n.fields[key].node)) && DefaultNode(n.fields[key].node, Cylinder)
  {
    var v := NewCylinder();
    n.fields := n.fields[key := Ref(v)];
  }

  method PutNewCone(n: Node, key: string)
    modifies n
    ensures Applied(Chosen(Cls(Cone)), key, old(n.fields), n.fields)
    ensures fresh(NodeAndChildren(n.fields[key].node)) && DefaultNode(n.fields[key].node, Cone)
  {
    var v := NewCone();
    n.fields := n.fields[key := Ref(v)];
  }

  method PutNewEllipsoid(n: Node, key: string)
    modifies n
    ensures Applied(Chosen(Cls(Ellipsoid)), key, old(n.fields), n.fields)
    ensures fresh(NodeAndChildren(n.fields[key].node)) && DefaultNode(n.fields[key].node, Ellipsoid)
  {
    var v := NewEllipsoid();
    n.fields := n.fields[key := Ref(v)];
  }

  method PutNewEllipticalTube(n: Node, key: string)
    modifies n
    ensures Applied(Chosen(Cls(EllipticalTube)), key, old(n.fields), n.fields)
    ensures fresh(NodeAndChildren(n.fields[key].node)) && DefaultNode(n.fields[key].node, EllipticalTube)
  {
    var v := NewEllipticalTube();
    n.fields := n.fields[key := Ref(v)];
  }

  method PutNewTessellated(n: Node, key: string)
    modifies n
    ensures Applied(Chosen(Cls(Tessellated)), key, old(n.fields), n.fields)
    ensures fresh(NodeAndChildren(n.fields[key].node)) && DefaultNode(n.fields[key].node, Tessellated)
  {
    var v := NewTessellated();
    n.fields := n.fields[key := Ref(v)];
  }

  method PutNewTetMeshBox(n: Node, key: string)
    modifies n
    ensures Applied(Chosen(Cls(TetMeshBox)), key, old(n.fields), n.fields)
    ensures fresh(NodeAndChildren(n.fields[key].node)) && DefaultNode(n.fields[key].node, TetMeshBox)
  {
    var v := NewTetMeshBox();
    n.fields := n.fields[key := Ref(v)];
  }

  method PutNewTRPD(n: Node, key: string)
    modifies n
    ensures Applied(Chosen(Cls(TRPD)), key, old(n.fields), n.fields)
    ensures fresh(NodeAndChildren(n.fields[key].node)) && DefaultNode(n.fields[key].node, TRPD)
  {
    var v := NewTRPD();
    n.fields := n.fields[key := Ref(v)];
  }

  method PutNewHexagone(n: Node, key: string)
    modifies n
    ensures Applied(Chosen(Cls(Hexagone)), key, old(n.fields), n.fields)
    ensures fresh(NodeAndChildren(n.fields[key].node)) && DefaultNode(n.fields[key].node, Hexagone)
  {
    var v := NewHexagone();
    n.fields := n.fields[key := Ref(v)];
  }

  method PutNewWedge(n: Node, key: string)
    modifies n
    ensures Applied(Chosen(Cls(Wedge)), key, old(n.fields), n.fields)
    ensures fresh(NodeAndChildren(n.fields[key].node)) && DefaultNode(n.fields[key].node, Wedge)
  {
    var v := NewWedge();
    n.fields := n.fields[key := Ref(v)];
  }

  method PutNewInverseSquareLaw(n: Node, key: string)
    modifies n
    ensures Applied(Chosen(Cls(InverseSquareLaw)), key, old(n.fields), n.fields)
    ensures fresh(NodeAndChildren(n.fields[key].node)) && DefaultNode(n.fields[key].node, InverseSquareLaw)
  {
    var v := NewInverseSquareLaw();
    n.fields := n.fields[key := Ref(v)];
  }

  method PutNewLinearLaw(n: Node, key: string)
    modifies n
    ensures Applied(Chosen(Cls(LinearLaw)), key, old(n.fields), n.fields)
    ensures fresh(NodeAndChildren(n.fields[key].node)) && DefaultNode(n.fields[key].node, LinearLaw)
  {
    var v := NewLinearLaw();
    n.fields := n.fields[key := Ref(v)];
  }

  method PutNewFlat(n: Node, key: string)
    modifies n
    ensures Applied(Chosen(Cls(Flat)), key, old(n.fields), n.fields)
    ensures fresh(NodeAndChildren(n.fields[key].node)) && DefaultNode(n.fields[key].node, Flat)
  {
    var v := NewFlat();
    n.fields := n.fields[key := Ref(v)];
  }

  method PutNewGaussian(n: Node, key: string)
    modifies n
    ensures Applied(Chosen(Cls(Gaussian)), key, old(n.fields), n.fields)
    ensures fresh(NodeAndChildren(n.fields[key].node)) && DefaultNode(n.fields[key].node, Gaussian)
  {
    var v := NewGaussian();
    n.fields := n.fields[key := Ref(v)];
  }

  method PutNewExponential(n: Node, key: string)
    modifies n
    ensures Applied(Chosen(Cls(Exponential)), key, old(n.fields), n.fields)
    ensures fresh(NodeAndChildren(n.fields[key].node)) && DefaultNode(n.fields[key].node, Exponential)
  {
    var v := NewExponential();
    n.fields := n.fields[key := Ref(v)];
  }

  method PutNewManual(n: Node, key: string)
    modifies n
    ensures Applied(Chosen(Cls(Manual)), key, old(n.fields), n.fields)
    ensures fresh(NodeAndChildren(n.fields[key].node)) && DefaultNode(n.fields[key].node, Manual)
  {
    var v := NewManual();
    n.fields := n.fields[key := Ref(v)];
  }

  method PutNewFile(n: Node, key: string)
    modifies n
    ensures Applied(Chosen(Cls(File)), key, old(n.fields), n.fields)
    ensures fresh(NodeAndChildren(n.fields[key].node)) && DefaultNode(n.fields[key].node, File)
  {
    var v := NewFile();
    n.fields := n.fields[key := Ref(v)];
  }

  method PutNewSource(n: Node, key: string)
    modifies n
    ensures Applied(Chosen(Cls(Source)), key, old(n.fields), n.fields)
    ensures fresh(NodeAndChildren(n.fields[key].node)) && DefaultNode(n.fields[key].node, Source)
  {
    var v := NewSource();
    n.fields := n.fields[key := Ref(v)];
  }

  method PutNewVoxelizedSource(n: Node, key: string)
    modifies n
    ensures Applied(Chosen(Cls(VoxelizedSource)), key, old(n.fields), n.fields)
    ensures fresh(NodeAndChildren(n.fields[key].node)) && DefaultNode(n.fields[key].node, VoxelizedSource)
  {
    var v := NewVoxelizedSource();
    n.fields := n.fields[key := Ref(v)];
  }

  method PutNewLinearTranslator(n: Node, key: string)
    modifies n
    ensures Applied(Chosen(Cls(LinearTranslator)), key, old(n.fields), n.fields)
    ensures fresh(NodeAndChildren(n.fields[key].node)) && DefaultNode(n.fields[key].node, LinearTranslator)
  {
    var v := NewLinearTranslator();
    n.fields := n.fields[key := Ref(v)];
  }

  method PutNewRangeTranslator(n: Node, key: string)
    modifies n
    ensures Applied(Chosen(Cls(RangeTranslator)), key, old(n.fields), n.fields)
    ensures fresh(NodeAndChildren(n.fields[key].node)) && DefaultNode(n.fields[key].node, RangeTranslator)
  {
    var v := NewRangeTranslator();
    n.fields := n.fields[key := Ref(v)];
  }

  method PutNewValue(n: Node, key: string)
    modifies n
    ensures Applied(Chosen(Cls(Value)), key, old(n.fields), n.fields)
    ensures fresh(NodeAndChildren(n.fields[key].node)) && DefaultNode(n.fields[key].node, Value)
  {
    var v := NewValue();
    n.fields := n.fields[key := Ref(v)];
  }

  /** `Geometry.choose_subclass(key, subclass)`. */
  method GeometryChooseSubclass(n: Node, key: string, subclass: string)
    requires n.cls == Geometry
    modifies n
    ensures Applied(GeometryChoice(key, subclass), key, old(n.fields), n.fields)
    ensures var ch := GeometryChoice(key, subclass);
      ch.Chosen? && ch.t.Cls? ==>
        fresh(NodeAndChildren(n.fields[key].node)) && DefaultNode(n.fields[key].node, ch.t.c)
  {
    match key {
    case "scanner" =>
      match subclass {
      case "Scanner" => PutNewScanner(n, "scanner");
      case "CTscanner" => PutNewCTscanner(n, "scanner");
      case "CylindricalPET" => PutNewCylindricalPET(n, "scanner");
      case "CPET" => PutNewCPET(n, "scanner");
      case "ECAT" => PutNewECAT(n, "scanner");
      case "ECATAccel" => PutNewECATAccel(n, "scanner");
      case "OPET" => PutNewOPET(n, "scanner");
      case "SPECThead" => PutNewSPECThead(n, "scanner");
      case _ => n.fields := n.fields["scanner" := Undefined];
      }
    case "phantom" =>
      match subclass {
      case "Volume" => PutNewVolume(n, "phantom");
      case "VoxelizedPhantom" => PutNewVoxelizedPhantom(n, "phantom");
      case _ => n.fields := n.fields["phantom" := Undefined];
      }
    case _ =>
    }
  }

  /** `Volume.choose_subclass(key, subclass)`. */
  method VolumeChooseSubclass(n: Node, key: string, subclass: string)
    requires n.cls == Volume
    modifies n
    ensures Applied(VolumeChoice(key, subclass), key, old(n.fields), n.fields)
    ensures var ch := VolumeChoice(key, subclass);
      ch.Chosen? && ch.t.Cls? ==>
        fresh(NodeAndChildren(n.fields[key].node)) && DefaultNode(n.fields[key].node, ch.t.c)
  {
    match key {
    case "shape" =>
      match subclass {
      case "Box" => PutNewBox(n, "shape");
      case "Sphere" => PutNewSphere(n, "shape");
      case "Cylinder" => PutNewCylinder(n, "shape");
      case "Cone" => PutNewCone(n, "shape");
      case "Ellipsoid" => PutNewEllipsoid(n, "shape");
      case "EllipticalTube" => PutNewEllipticalTube(n, "shape");
      case "Tessellated" => PutNewTessellated(n, "shape");
      case "TetMeshBox" => PutNewTetMeshBox(n, "shape");
      case "TRPD" => PutNewTRPD(n, "shape");
      case "Hexagone" => PutNewHexagone(n, "shape");
      case "Wedge" => PutNewWedge(n, "shape");
      case _ => n.fields := n.fields["shape" := Undefined];
      }
    case _ =>
    }
  }

  /** `Blurring.choose_subclass(key, subclass)`. */
  method BlurringChooseSubclass(n: Node, key: string, subclass: string)
    requires n.cls == Blurring
    modifies n
    ensures Applied(BlurringChoice(key, subclass), key, old(n.fields), n.fields)
    ensures var ch := BlurringChoice(key, subclass);
      ch.Chosen? && ch.t.Cls? ==>
        fresh(NodeAndChildren(n.fields[key].node)) && DefaultNode(n.fields[key].node, ch.t.c)
  {
    match key {
    case "law" =>
      match subclass {
      case "InverseSquareLaw" => PutNewInverseSquareLaw(n, "law");
      case "LinearLaw" => PutNewLinearLaw(n, "law");
      case _ => n.fields := n.fields["law" := Undefined];
      }
    case _ =>
    }
  }

  /** `QuantumEfficiency.choose_subclass(key, subclass)`. */
  method QuantumEfficiencyChooseSubclass(n: Node, key: string, subclass: string)
    requires n.cls == QuantumEfficiency
    modifies n
    ensures Applied(QuantumEfficiencyChoice(key, subclass), key, old(n.fields), n.fields)
    ensures var ch := QuantumEfficiencyChoice(key, subclass);
      ch.Chosen? && ch.t.Cls? ==>
        fresh(NodeAndChildren(n.fields[key].node)) && DefaultNode(n.fields[key].node, ch.t.c)
  {
    match key {
    case "unique_qe" =>
      match subclass {
      case "number" => n.fields := n.fields["unique_qe" := Null];
      case "string" => n.fields := n.fields["unique_qe" := Str("")];
      case _ => n.fields := n.fields["unique_qe" := Undefined];
      }
    case _ =>
    }
  }

  /** `Noise.choose_subclass(key, subclass)`. */
  method NoiseChooseSubclass(n: Node, key: string, subclass: string)
    requires n.cls == Noise
    modifies n
    ensures Applied(NoiseChoice(key, subclass), key, old(n.fields), n.fields)
    ensures var ch := NoiseChoice(key, subclass);
      ch.Chosen? && ch.t.Cls? ==>
        fresh(NodeAndChildren(n.fields[key].node)) && DefaultNode(n.fields[key].node, ch.t.c)
  {
    match key {
    case "deltaT_distribution" =>
      match subclass {
      case "Flat" => PutNewFlat(n, "deltaT_distribution");
      case "Gaussian" => PutNewGaussian(n, "deltaT_distribution");
      case "Exponential" => PutNewExponential(n, "deltaT_distribution");
      case "Manual" => PutNewManual(n, "deltaT_distribution");
      case "File" => PutNewFile(n, "deltaT_distribution");
      case _ => n.fields := n.fields["deltaT_distribution" := Undefined];
      }
    case "energy_distribution" =>
      match subclass {
      case "Flat" => PutNewFlat(n, "energy_distribution");
      case "Gaussian" => PutNewGaussian(n, "energy_distribution");
      case "Exponential" => PutNewExponential(n, "energy_distribution");
      case "Manual" => PutNewManual(n, "energy_distribution");
      case "File" => PutNewFile(n, "energy_distribution");
      case _ => n.fields := n.fields["energy_distribution" := Undefined];
      }
    case _ =>
    }
  }

  /** `LocalEfficiency.choose_subclass(key, subclass)`. */
  method LocalEfficiencyChooseSubclass(n: Node, key: string, subclass: string)
    requires n.cls == LocalEfficiency
    modifies n
    ensures Applied(LocalEfficiencyChoice(key, subclass), key, old(n.fields), n.fields)
    ensures var ch := LocalEfficiencyChoice(key, subclass);
      ch.Chosen? && ch.t.Cls? ==>
        fresh(NodeAndChildren(n.fields[key].node)) && DefaultNode(n.fields[key].node, ch.t.c)
  {
    match key {
    case "Level1" =>
      match subclass {
      case "Flat" => PutNewFlat(n, "Level1");
      case "Gaussian" => PutNewGaussian(n, "Level1");
      case "Exponential" => PutNewExponential(n, "Level1");
      case "Manual" => PutNewManual(n, "Level1");
      case "File" => PutNewFile(n, "Level1");
      case _ => n.fields := n.fields["Level1" := Undefined];
      }
    case "Level2" =>
      match subclass {
      case "Flat" => PutNewFlat(n, "Level2");
      case "Gaussian" => PutNewGaussian(n, "Level2");
      case "Exponential" => PutNewExponential(n, "Level2");
      case "Manual" => PutNewManual(n, "Level2");
      case "File" => PutNewFile(n, "Level2");
      case _ => n.fields := n.fields["Level2" := Undefined];
      }
    case _ =>
    }
  }

  /** `ChooseSource.choose_subclass(key, subclass)`. */
  method ChooseSourceChooseSubclass(n: Node, key: string, subclass: string)
    requires n.cls == ChooseSource
    modifies n
    ensures Applied(ChooseSourceChoice(key, subclass), key, old(n.fields), n.fields)
    ensures var ch := ChooseSourceChoice(key, subclass);
      ch.Chosen? && ch.t.Cls? ==>
        fresh(NodeAndChildren(n.fields[key].node)) && DefaultNode(n.fields[key].node, ch.t.c)
  {
    match key {
    case "choose_source" =>
      match subclass {
      case "Source" => PutNewSource(n, "choose_source");
      case "VoxelizedSource" => PutNewVoxelizedSource(n, "choose_source");
      case _ => n.fields := n.fields["choose_source" := Undefined];
      }
    case _ =>
    }
  }

  /** `VoxelizedSource.choose_subclass(key, subclass)`. */
  method VoxelizedSourceChooseSubclass(n: Node, key: string, subclass: string)
    requires n.cls == VoxelizedSource
    modifies n
    ensures Applied(VoxelizedSourceChoice(key, subclass), key, old(n.fields), n.fields)
    ensures var ch := VoxelizedSourceChoice(key, subclass);
      ch.Chosen? && ch.t.Cls? ==>
        fresh(NodeAndChildren(n.fields[key].node)) && DefaultNode(n.fields[key].node, ch.t.c)
  {
    match key {
    case "insert_translator" =>
      match subclass {
      case "LinearTranslator" => PutNewLinearTranslator(n, "insert_translator");
      case "RangeTranslator" => PutNewRangeTranslator(n, "insert_translator");
      case _ => n.fields := n.fields["insert_translator" := Undefined];
      }
    case _ =>
    }
  }

  /** `Acquisition.choose_subclass(key, subclass)`. */
  method AcquisitionChooseSubclass(n: Node, key: string, subclass: string)
    requires n.cls == Acquisition
    modifies n
    ensures Applied(AcquisitionChoice(key, subclass), key, old(n.fields), n.fields)
    ensures var ch := AcquisitionChoice(key, subclass);
      ch.Chosen? && ch.t.Cls? ==>
        fresh(NodeAndChildren(n.fields[key].node)) && DefaultNode(n.fields[key].node, ch.t.c)
  {
    match key {
    case "time_slice" =>
      match subclass {
      case "Value" => PutNewValue(n, "time_slice");
      case "string" => n.fields := n.fields["time_slice" := Str("")];
      case _ => n.fields := n.fields["time_slice" := Undefined];
      }
    case "engine_seed" =>
      match subclass {
      case "number" => n.fields := n.fields["engine_seed" := Null];
      case "string" => n.fields := n.fields["engine_seed" := Str("")];
      case _ => n.fields := n.fields["engine_seed" := Undefined];
      }
    case _ =>
    }
  }

  /** `n.choose_subclass(key, subclass)`, dispatched on the class of `n`: it makes the choice that
      `input_type(key)` calls for. */
  method ChooseSubclass(n: Node, key: string, subclass: string)
    requires HasChooseSubclass(n.cls)
    modifies n
    ensures Applied(SamChoice(n.cls, key, subclass), key, old(n.fields), n.fields)
    ensures var ch := SamChoice(n.cls, key, subclass);
      ch.Chosen? && ch.t.Cls? ==>
        fresh(NodeAndChildren(n.fields[key].node)) && DefaultNode(n.fields[key].node, ch.t.c)
  {
    ChooseTableIsSamChoice(n.cls, key, subclass);
    match n.cls
    case Geometry => GeometryChooseSubclass(n, key, subclass);
    case Volume => VolumeChooseSubclass(n, key, subclass);
    case Blurring => BlurringChooseSubclass(n, key, subclass);
    case QuantumEfficiency => QuantumEfficiencyChooseSubclass(n, key, subclass);
    case Noise => NoiseChooseSubclass(n, key, subclass);
    case LocalEfficiency => LocalEfficiencyChooseSubclass(n, key, subclass);
    case ChooseSource => ChooseSourceChooseSubclass(n, key, subclass);
    case VoxelizedSource => VoxelizedSourceChooseSubclass(n, key, subclass);
    case Acquisition => AcquisitionChooseSubclass(n, key, subclass);
  }
}
