/** The variant picker of src/app/select-subclass/select-subclass.component.ts: the form shows it
    for a union field; `judgeClass` offers the variant names for the field's name, and
    `chooseSubclass` builds a fresh default for the name the user picks. */
module SelectSubclass {
  import opened SamTypes
  import opened SamInputType
  import opened SamFits
  import opened SamDefaults
  import opened SamChoose
  import opened SamUnionSlots

  /** The variant names `judgeClass` offers for a field name; `None` is `undefined`. */
  function JudgeClassTable(name: string): Option<seq<string>>
  {
    match name
    case "scanner" => Some(["Scanner", "CTscanner", "CylindricalPET", "CPET", "ECAT", "ECATAccel",
      "OPET", "SPECThead"])
    case "phantom" => Some(["Volume", "VoxelizedPhantom"])
    case "shape" => Some(["Box", "Sphere", "Cylinder", "Cone", "Ellipsoid", "EllipticalTube",
      "Tessellated", "TetMeshBox", "TRPD", "Hexagone", "Wedge"])
    case "deltaT_distribution" => Some(["Flat", "Gaussian", "Exponential", "Manual", "File"])
    case "energy_distribution" => Some(["Flat", "Gaussian", "Exponential", "Manual", "File"])
    case "Level1" => Some(["Flat", "Gaussian", "Exponential", "Manual", "File", "undefined"])
    case "Level2" => Some(["Flat", "Gaussian", "Exponential", "Manual", "File", "undefined"])
    case "law" => Some(["InverseSquareLaw", "LinearLaw"])
    case "insert_translator" => Some(["LinearTranslator", "RangeTranslator"])
    case "time_slice" => Some(["Value", "string"])
    case "engine_seed" => Some(["number", "string"])
    case _ => None
  }

  /** What `chooseSubclass` stores in `item` for a picked name. */
  datatype Pick =
    | NodeOf(c: ClassName) // a fresh default node of class `c`
    | ValueList            // a one-element array holding a fresh Value node
    | EmptyString          // `''`
    | MinusOne             // the number `-1`
    | Nothing              // `undefined`

  /** The switch of `chooseSubclass`. */
  function PickTable(event: string): Pick
  {
    match event
    case "Scanner" => NodeOf(Scanner)
    case "CTscanner" => NodeOf(CTscanner)
    case "CylindricalPET" => NodeOf(CylindricalPET)
    case "CPET" => NodeOf(CPET)
    case "ECAT" => NodeOf(ECAT)
    case "ECATAccel" => NodeOf(ECATAccel)
    case "OPET" => NodeOf(OPET)
    case "SPECThead" => NodeOf(SPECThead)
    case "Volume" => NodeOf(Volume)
    case "VoxelizedPhantom" => NodeOf(VoxelizedPhantom)
    case "Box" => NodeOf(Box)
    case "Sphere" => NodeOf(Sphere)
    case "Cylinder" => NodeOf(Cylinder)
    case "Cone" => NodeOf(Cone)
    case "Ellipsoid" => NodeOf(Ellipsoid)
    case "EllipticalTube" => NodeOf(EllipticalTube)
    case "Tessellated" => NodeOf(Tessellated)
    case "TetMeshBox" => NodeOf(TetMeshBox)
    case "TRPD" => NodeOf(TRPD)
    case "Hexagone" => NodeOf(Hexagone)
    case "Wedge" => NodeOf(Wedge)
    case "Flat" => NodeOf(Flat)
    case "Gaussian" => NodeOf(Gaussian)
    case "Exponential" => NodeOf(Exponential)
    case "Manual" => NodeOf(Manual)
    case "File" => NodeOf(File)
    case "InverseSquareLaw" => NodeOf(InverseSquareLaw)
    case "LinearLaw" => NodeOf(LinearLaw)
    case "LinearTranslator" => NodeOf(LinearTranslator)
    case "RangeTranslator" => NodeOf(RangeTranslator)
    case "Value" => ValueList
    case "string" => EmptyString
    case "number" => MinusOne
    case _ => Nothing
  }

  /** The union fields `judgeClass` has a list for, with the class that owns each. */
  const PickerSlots: set<(ClassName, string)> :=
    {(Geometry, "scanner"), (Geometry, "phantom"), (Volume, "shape"),
     (Noise, "deltaT_distribution"), (Noise, "energy_distribution"), (LocalEfficiency, "Level1"),
     (LocalEfficiency, "Level2"), (Blurring, "law"), (VoxelizedSource, "insert_translator"),
     (Acquisition, "time_slice"), (Acquisition, "engine_seed")}

  /** The field names of `PickerSlots`. */
  const PickerKeys: set<string> :=
    {"scanner", "phantom", "shape", "deltaT_distribution", "energy_distribution", "Level1",
     "Level2", "law", "insert_translator", "time_slice", "engine_seed"}

  /** What `judgeClass` lists after the variant names: the string `'undefined'` for the Level
      fields of LocalEfficiency, nothing for the others. */
  function PickerExtra(key: string): seq<string>
  {
    if key == "Level1" || key == "Level2" then ["undefined"] else []
  }

  /** How the item the picker builds for a name compares with what `choose_subclass` stores for
      it: the same fresh node for a class variant, except that `'Value'` gives a one-element
      array instead of a node; `''` for `'string'`; `-1` where `choose_subclass` stores `null`;
      `undefined` where it clears the field. */
  predicate PickerVersus(ch: Choice, p: Pick)
  {
    match ch
    case Chosen(Cls(c)) => p == (if c == Value then ValueList else NodeOf(c))
    case Chosen(Prim(TString)) => p == EmptyString
    case Chosen(Prim(TNumber)) => p == MinusOne
    case Chosen(Prim(TBoolean)) => false
    case Cleared => p == Nothing
    case Unchanged => false
  }

  /** `SelectSubclassComponent`: the field name it is bound to, the list it offers and the item it
      built last. */
  class SelectSubclassComponent {
    var name: string
    var item: JsValue
    var subclass: Option<seq<string>>

    /** A picker bound to the field `name`, before anything is offered or picked. */
    constructor (name: string)
      ensures this.name == name && item == Undefined && subclass == None
    {
      this.name := name;
      item := Undefined;
      subclass := None;
    }

    /** `judgeClass()`: stores the variant names for `name` in `subclass` and returns them. */
    method JudgeClass() returns (r: Option<seq<string>>)
      modifies this
      ensures r == subclass && r == JudgeClassTable(name)
      ensures name == old(name) && item == old(item)
    {
      match name {
        case "scanner" => subclass := Some(["Scanner", "CTscanner", "CylindricalPET", "CPET",
          "ECAT", "ECATAccel", "OPET", "SPECThead"]);
        case "phantom" => subclass := Some(["Volume", "VoxelizedPhantom"]);
        case "shape" => subclass := Some(["Box", "Sphere", "Cylinder", "Cone", "Ellipsoid",
          "EllipticalTube", "Tessellated", "TetMeshBox", "TRPD", "Hexagone", "Wedge"]);
        case "deltaT_distribution" => subclass := Some(["Flat", "Gaussian", "Exponential",
          "Manual", "File"]);
        case "energy_distribution" => subclass := Some(["Flat", "Gaussian", "Exponential",
          "Manual", "File"]);
        case "Level1" => subclass := Some(["Flat", "Gaussian", "Exponential", "Manual", "File",
          "undefined"]);
        case "Level2" => subclass := Some(["Flat", "Gaussian", "Exponential", "Manual", "File",
          "undefined"]);
        case "law" => subclass := Some(["InverseSquareLaw", "LinearLaw"]);
        case "insert_translator" => subclass := Some(["LinearTranslator", "RangeTranslator"]);
        case "time_slice" => subclass := Some(["Value", "string"]);
        case "engine_seed" => subclass := Some(["number", "string"]);
        case _ => subclass := None;
      }
      r := subclass;
    }

    /** `chooseSubclass(event)`: builds the default for the picked name, stores it in `item` and
        hands it on. */
    method ChooseSubclass(event: string) returns (r: JsValue)
      modifies this
      ensures r == item && name == old(name) && subclass == old(subclass)
      ensures var p := PickTable(event);
        && (p.NodeOf? ==>
              && item.Ref? && fresh(NodeAndChildren(item.node)) && DefaultNode(item.node, p.c))
        && (p.ValueList? ==>
              && item.Arr? && |item.elems| == 1 && item.elems[0].Ref?
              && fresh(NodeAndChildren(item.elems[0].node)) && DefaultNode(item.elems[0].node, Value))
        && (p.EmptyString? ==> item == Str(""))
        && (p.MinusOne? ==> item == Num(-1))
        && (p.Nothing? ==> item == Undefined)
    {
      PickedClassesBuilt(event);
      var p := PickTable(event);
      match p {
        case NodeOf(c) => StoreNew(c);
        case ValueList => StoreValueList();
        case EmptyString => item := Str("");
        case MinusOne => item := Num(-1);
        case Nothing => item := Undefined;
      }
      r := item;
    }

    /** `this.item = new X()`, for a class `X` a case of `chooseSubclass` names. */
    method StoreNew(c: ClassName)
      requires c in PickedClasses
      modifies this
      ensures item.Ref? && fresh(NodeAndChildren(item.node)) && DefaultNode(item.node, c)
      ensures name == old(name) && subclass == old(subclass)
    {
      var n := NewPicked(c);
      item := Ref(n);
    }

    /** `this.item = [new Value()]`, the case for `'Value'`. */
    method StoreValueList()
      modifies this
      ensures item.Arr? && |item.elems| == 1 && item.elems[0].Ref?
      ensures fresh(NodeAndChildren(item.elems[0].node)) && DefaultNode(item.elems[0].node, Value)
      ensures name == old(name) && subclass == old(subclass)
    {
      var n := NewValue();
      item := Arr([Ref(n)]);
    }
  }

  /** The classes `chooseSubclass` builds a node of. */
  const PickedClasses: set<ClassName> := {Scanner, CTscanner, CylindricalPET, CPET, ECAT,
    ECATAccel, OPET, SPECThead, Volume, VoxelizedPhantom, Box, Sphere, Cylinder, Cone, Ellipsoid,
    EllipticalTube, Tessellated, TetMeshBox, TRPD, Hexagone, Wedge, Flat, Gaussian, Exponential,
    Manual, File, InverseSquareLaw, LinearLaw, LinearTranslator, RangeTranslator}

  /** Every class the switch of `chooseSubclass` names is one it can build. */
  lemma PickedClassesBuilt(event: string)
    ensures PickTable(event).NodeOf? ==> PickTable(event).c in PickedClasses
  {
  }

  /** `this.item = new X()` for the class `X` a case of `chooseSubclass` names. */
  method NewPicked(c: ClassName) returns (n: Node)
    requires c in PickedClasses
    ensures fresh(NodeAndChildren(n)) && DefaultNode(n, c)
  {
    match c {
      case Scanner => n := NewScanner();
      case CTscanner => n := NewCTscanner();
      case CylindricalPET => n := NewCylindricalPET();
      case CPET => n := NewCPET();
      case ECAT => n := NewECAT();
      case ECATAccel => n := NewECATAccel();
      case OPET => n := NewOPET();
      case SPECThead => n := NewSPECThead();
      case Volume => n := NewVolume();
      case VoxelizedPhantom => n := NewVoxelizedPhantom();
      case Box => n := NewBox();
      case Sphere => n := NewSphere();
      case Cylinder => n := NewCylinder();
      case Cone => n := NewCone();
      case Ellipsoid => n := NewEllipsoid();
      case EllipticalTube => n := NewEllipticalTube();
      case Tessellated => n := NewTessellated();
      case TetMeshBox => n := NewTetMeshBox();
      case TRPD => n := NewTRPD();
      case Hexagone => n := NewHexagone();
      case Wedge => n := NewWedge();
      case Flat => n := NewFlat();
      case Gaussian => n := NewGaussian();
      case Exponential => n := NewExponential();
      case Manual => n := NewManual();
      case File => n := NewFile();
      case InverseSquareLaw => n := NewInverseSquareLaw();
      case LinearLaw => n := NewLinearLaw();
      case LinearTranslator => n := NewLinearTranslator();
      case RangeTranslator => n := NewRangeTranslator();
    }
  }

  /** `judgeClass('scanner')` offers the variants `Geometry.input_type('scanner')` lists. */
  lemma GeometryScannerJudgeList()
    ensures IsUnionSlot(Geometry, "scanner")
    ensures JudgeClassTable("scanner")
      == Some(VariantNames(InputType(Geometry, "scanner").value.subclass) + PickerExtra("scanner"))
  {
    GeometryScannerDescriptor();
    GeometryScannerJudgeNames();
    var variants := [Some(Cls(Scanner)), Some(Cls(CTscanner)), Some(Cls(CylindricalPET)),
      Some(Cls(CPET)), Some(Cls(ECAT)), Some(Cls(ECATAccel)), Some(Cls(OPET)),
      Some(Cls(SPECThead))];
    assert PickerExtra("scanner") == [];
    assert VariantNames(variants) + PickerExtra("scanner") == VariantNames(variants);
  }

  /** `Geometry.input_type('scanner')` written out. */
  lemma GeometryScannerDescriptor()
    ensures InputType(Geometry, "scanner") == Some(Union("System", [Some(Cls(Scanner)),
      Some(Cls(CTscanner)), Some(Cls(CylindricalPET)), Some(Cls(CPET)), Some(Cls(ECAT)),
      Some(Cls(ECATAccel)), Some(Cls(OPET)), Some(Cls(SPECThead))]))
  {
    InputTypeOfGeometry("scanner");
  }

  /** The list `judgeClass('scanner')` offers, as the names of those variants. */
  lemma GeometryScannerJudgeNames()
    ensures JudgeClassTable("scanner") == Some(VariantNames([Some(Cls(Scanner)),
      Some(Cls(CTscanner)), Some(Cls(CylindricalPET)), Some(Cls(CPET)), Some(Cls(ECAT)),
      Some(Cls(ECATAccel)), Some(Cls(OPET)), Some(Cls(SPECThead))]))
  {
    GeometryScannerVariantNames();
  }

  /** For each name `judgeClass('scanner')` offers, the picker builds what `Geometry.choose_subclass`
      stores, up to the differences `PickerVersus` allows. */
  lemma GeometryScannerPicks()
    ensures forall n :: n in ["Scanner", "CTscanner", "CylindricalPET", "CPET", "ECAT",
      "ECATAccel", "OPET", "SPECThead"] ==>
      && PickerVersus(ChooseTable(Geometry, "scanner", n), PickTable(n))
      && (PickTable(n) == Nothing <==> n == "undefined")
  {
  }

  /** `judgeClass('phantom')` offers the variants `Geometry.input_type('phantom')` lists. */
  lemma GeometryPhantomJudgeList()
    ensures IsUnionSlot(Geometry, "phantom")
    ensures JudgeClassTable("phantom")
      == Some(VariantNames(InputType(Geometry, "phantom").value.subclass) + PickerExtra("phantom"))
  {
    GeometryPhantomDescriptor();
    GeometryPhantomJudgeNames();
    var variants := [Some(Cls(Volume)), Some(Cls(VoxelizedPhantom))];
    assert PickerExtra("phantom") == [];
    assert VariantNames(variants) + PickerExtra("phantom") == VariantNames(variants);
  }

  /** `Geometry.input_type('phantom')` written out. */
  lemma GeometryPhantomDescriptor()
    ensures InputType(Geometry, "phantom") == Some(Union("Volume | VoxelizedPhantom", [
      Some(Cls(Volume)), Some(Cls(VoxelizedPhantom))]))
  {
    InputTypeOfGeometry("phantom");
  }

  /** The list `judgeClass('phantom')` offers, as the names of those variants. */
  lemma GeometryPhantomJudgeNames()
    ensures JudgeClassTable("phantom") == Some(VariantNames([Some(Cls(Volume)),
      Some(Cls(VoxelizedPhantom))]))
  {
    GeometryPhantomVariantNames();
  }

  /** For each name `judgeClass('phantom')` offers, the picker builds what `Geometry.choose_subclass`
      stores, up to the differences `PickerVersus` allows. */
  lemma GeometryPhantomPicks()
    ensures forall n :: n in ["Volume", "VoxelizedPhantom"] ==>
      && PickerVersus(ChooseTable(Geometry, "phantom", n), PickTable(n))
      && (PickTable(n) == Nothing <==> n == "undefined")
  {
  }

  /** `judgeClass('shape')` offers the variants `Volume.input_type('shape')` lists. */
  lemma VolumeShapeJudgeList()
    ensures IsUnionSlot(Volume, "shape")
    ensures JudgeClassTable("shape")
      == Some(VariantNames(InputType(Volume, "shape").value.subclass) + PickerExtra("shape"))
  {
    VolumeShapeDescriptor();
    VolumeShapeJudgeNames();
    var variants := [Some(Cls(Box)), Some(Cls(Sphere)), Some(Cls(Cylinder)), Some(Cls(Cone)),
      Some(Cls(Ellipsoid)), Some(Cls(EllipticalTube)), Some(Cls(Tessellated)),
      Some(Cls(TetMeshBox)), Some(Cls(TRPD)), Some(Cls(Hexagone)), Some(Cls(Wedge))];
    assert PickerExtra("shape") == [];
    assert VariantNames(variants) + PickerExtra("shape") == VariantNames(variants);
  }

  /** `Volume.input_type('shape')` written out. */
  lemma VolumeShapeDescriptor()
    ensures InputType(Volume, "shape") == Some(Union("Shape", [Some(Cls(Box)), Some(Cls(Sphere)),
      Some(Cls(Cylinder)), Some(Cls(Cone)), Some(Cls(Ellipsoid)), Some(Cls(EllipticalTube)),
      Some(Cls(Tessellated)), Some(Cls(TetMeshBox)), Some(Cls(TRPD)), Some(Cls(Hexagone)),
      Some(Cls(Wedge))]))
  {
    InputTypeOfVolume("shape");
  }

  /** The list `judgeClass('shape')` offers, as the names of those variants. */
  lemma VolumeShapeJudgeNames()
    ensures JudgeClassTable("shape") == Some(VariantNames([Some(Cls(Box)), Some(Cls(Sphere)),
      Some(Cls(Cylinder)), Some(Cls(Cone)), Some(Cls(Ellipsoid)), Some(Cls(EllipticalTube)),
      Some(Cls(Tessellated)), Some(Cls(TetMeshBox)), Some(Cls(TRPD)), Some(Cls(Hexagone)),
      Some(Cls(Wedge))]))
  {
    VolumeShapeVariantNames();
  }

  /** For each name `judgeClass('shape')` offers, the picker builds what `Volume.choose_subclass`
      stores, up to the differences `PickerVersus` allows. */
  lemma VolumeShapePicksFront()
    ensures forall n :: n in ["Box", "Sphere", "Cylinder", "Cone", "Ellipsoid"] ==>
      && PickerVersus(ChooseTable(Volume, "shape", n), PickTable(n))
      && (PickTable(n) == Nothing <==> n == "undefined")
  {
  }

  /** The same, for the remaining names. */
  lemma VolumeShapePicksBack()
    ensures forall n :: n in ["EllipticalTube", "Tessellated", "TetMeshBox", "TRPD", "Hexagone",
      "Wedge"] ==>
      && PickerVersus(ChooseTable(Volume, "shape", n), PickTable(n))
      && (PickTable(n) == Nothing <==> n == "undefined")
  {
  }

  /** `judgeClass('deltaT_distribution')` offers the variants `Noise.input_type('deltaT_distribution')` lists. */
  lemma NoiseDeltaTDistributionJudgeList()
    ensures IsUnionSlot(Noise, "deltaT_distribution")
    ensures JudgeClassTable("deltaT_distribution")
      == Some(VariantNames(InputType(Noise, "deltaT_distribution").value.subclass) + PickerExtra("deltaT_distribution"))
  {
    NoiseDeltaTDistributionDescriptor();
    NoiseDeltaTDistributionJudgeNames();
    var variants := [Some(Cls(Flat)), Some(Cls(Gaussian)), Some(Cls(Exponential)),
      Some(Cls(Manual)), Some(Cls(File))];
    assert PickerExtra("deltaT_distribution") == [];
    assert VariantNames(variants) + PickerExtra("deltaT_distribution") == VariantNames(variants);
  }

  /** `Noise.input_type('deltaT_distribution')` written out. */
  lemma NoiseDeltaTDistributionDescriptor()
    ensures InputType(Noise, "deltaT_distribution") == Some(Union("Distribution", [Some(Cls(Flat)),
      Some(Cls(Gaussian)), Some(Cls(Exponential)), Some(Cls(Manual)), Some(Cls(File))]))
  {
    InputTypeOfNoise("deltaT_distribution");
  }

  /** The list `judgeClass('deltaT_distribution')` offers, as the names of those variants. */
  lemma NoiseDeltaTDistributionJudgeNames()
    ensures JudgeClassTable("deltaT_distribution") == Some(VariantNames([Some(Cls(Flat)),
      Some(Cls(Gaussian)), Some(Cls(Exponential)), Some(Cls(Manual)), Some(Cls(File))]))
  {
    NoiseDeltaTDistributionVariantNames();
  }

  /** For each name `judgeClass('deltaT_distribution')` offers, the picker builds what `Noise.choose_subclass`
      stores, up to the differences `PickerVersus` allows. */
  lemma NoiseDeltaTDistributionPicks()
    ensures forall n :: n in ["Flat", "Gaussian", "Exponential", "Manual", "File"] ==>
      && PickerVersus(ChooseTable(Noise, "deltaT_distribution", n), PickTable(n))
      && (PickTable(n) == Nothing <==> n == "undefined")
  {
  }

  /** `judgeClass('energy_distribution')` offers the variants `Noise.input_type('energy_distribution')` lists. */
  lemma NoiseEnergyDistributionJudgeList()
    ensures IsUnionSlot(Noise, "energy_distribution")
    ensures JudgeClassTable("energy_distribution")
      == Some(VariantNames(InputType(Noise, "energy_distribution").value.subclass) + PickerExtra("energy_distribution"))
  {
    NoiseEnergyDistributionDescriptor();
    NoiseEnergyDistributionJudgeNames();
    var variants := [Some(Cls(Flat)), Some(Cls(Gaussian)), Some(Cls(Exponential)),
      Some(Cls(Manual)), Some(Cls(File))];
    assert PickerExtra("energy_distribution") == [];
    assert VariantNames(variants) + PickerExtra("energy_distribution") == VariantNames(variants);
  }

  /** `Noise.input_type('energy_distribution')` written out. */
  lemma NoiseEnergyDistributionDescriptor()
    ensures InputType(Noise, "energy_distribution") == Some(Union("Distribution", [Some(Cls(Flat)),
      Some(Cls(Gaussian)), Some(Cls(Exponential)), Some(Cls(Manual)), Some(Cls(File))]))
  {
    InputTypeOfNoise("energy_distribution");
  }

  /** The list `judgeClass('energy_distribution')` offers, as the names of those variants. */
  lemma NoiseEnergyDistributionJudgeNames()
    ensures JudgeClassTable("energy_distribution") == Some(VariantNames([Some(Cls(Flat)),
      Some(Cls(Gaussian)), Some(Cls(Exponential)), Some(Cls(Manual)), Some(Cls(File))]))
  {
    NoiseEnergyDistributionVariantNames();
  }

  /** For each name `judgeClass('energy_distribution')` offers, the picker builds what `Noise.choose_subclass`
      stores, up to the differences `PickerVersus` allows. */
  lemma NoiseEnergyDistributionPicks()
    ensures forall n :: n in ["Flat", "Gaussian", "Exponential", "Manual", "File"] ==>
      && PickerVersus(ChooseTable(Noise, "energy_distribution", n), PickTable(n))
      && (PickTable(n) == Nothing <==> n == "undefined")
  {
  }

  /** `judgeClass('Level1')` offers the variants `LocalEfficiency.input_type('Level1')` lists, and the string `'undefined'` after them. */
  lemma LocalEfficiencyLevel1JudgeList()
    ensures IsUnionSlot(LocalEfficiency, "Level1")
    ensures JudgeClassTable("Level1")
      == Some(VariantNames(InputType(LocalEfficiency, "Level1").value.subclass) + PickerExtra("Level1"))
  {
    LocalEfficiencyLevel1Descriptor();
    LocalEfficiencyLevel1JudgeNames();
  }

  /** `LocalEfficiency.input_type('Level1')` written out. */
  lemma LocalEfficiencyLevel1Descriptor()
    ensures InputType(LocalEfficiency, "Level1") == Some(Union("Distribution", [None,
      Some(Cls(Flat)), Some(Cls(Gaussian)), Some(Cls(Exponential)), Some(Cls(Manual)),
      Some(Cls(File))]))
  {
    InputTypeOfLocalEfficiency("Level1");
  }

  /** The list `judgeClass('Level1')` offers, as the names of those variants. */
  lemma LocalEfficiencyLevel1JudgeNames()
    ensures JudgeClassTable("Level1") == Some(VariantNames([None, Some(Cls(Flat)),
      Some(Cls(Gaussian)), Some(Cls(Exponential)), Some(Cls(Manual)),
      Some(Cls(File))]) + ["undefined"])
  {
    LocalEfficiencyLevel1VariantNames();
    assert JudgeClassTable("Level1").value == ["Flat", "Gaussian", "Exponential", "Manual",
      "File"] + ["undefined"];
  }

  /** For each name `judgeClass('Level1')` offers, the picker builds what `LocalEfficiency.choose_subclass`
      stores, up to the differences `PickerVersus` allows. */
  lemma LocalEfficiencyLevel1Picks()
    ensures forall n :: n in ["Flat", "Gaussian", "Exponential", "Manual", "File", "undefined"] ==>
      && PickerVersus(ChooseTable(LocalEfficiency, "Level1", n), PickTable(n))
      && (PickTable(n) == Nothing <==> n == "undefined")
  {
  }

  /** `judgeClass('Level2')` offers the variants `LocalEfficiency.input_type('Level2')` lists, and the string `'undefined'` after them. */
  lemma LocalEfficiencyLevel2JudgeList()
    ensures IsUnionSlot(LocalEfficiency, "Level2")
    ensures JudgeClassTable("Level2")
      == Some(VariantNames(InputType(LocalEfficiency, "Level2").value.subclass) + PickerExtra("Level2"))
  {
    LocalEfficiencyLevel2Descriptor();
    LocalEfficiencyLevel2JudgeNames();
  }

  /** `LocalEfficiency.input_type('Level2')` written out. */
  lemma LocalEfficiencyLevel2Descriptor()
    ensures InputType(LocalEfficiency, "Level2") == Some(Union("Distribution", [None,
      Some(Cls(Flat)), Some(Cls(Gaussian)), Some(Cls(Exponential)), Some(Cls(Manual)),
      Some(Cls(File))]))
  {
    InputTypeOfLocalEfficiency("Level2");
  }

  /** The list `judgeClass('Level2')` offers, as the names of those variants. */
  lemma LocalEfficiencyLevel2JudgeNames()
    ensures JudgeClassTable("Level2") == Some(VariantNames([None, Some(Cls(Flat)),
      Some(Cls(Gaussian)), Some(Cls(Exponential)), Some(Cls(Manual)),
      Some(Cls(File))]) + ["undefined"])
  {
    LocalEfficiencyLevel2VariantNames();
    assert JudgeClassTable("Level2").value == ["Flat", "Gaussian", "Exponential", "Manual",
      "File"] + ["undefined"];
  }

  /** For each name `judgeClass('Level2')` offers, the picker builds what `LocalEfficiency.choose_subclass`
      stores, up to the differences `PickerVersus` allows. */
  lemma LocalEfficiencyLevel2Picks()
    ensures forall n :: n in ["Flat", "Gaussian", "Exponential", "Manual", "File", "undefined"] ==>
      && PickerVersus(ChooseTable(LocalEfficiency, "Level2", n), PickTable(n))
      && (PickTable(n) == Nothing <==> n == "undefined")
  {
  }

  /** `judgeClass('law')` offers the variants `Blurring.input_type('law')` lists. */
  lemma BlurringLawJudgeList()
    ensures IsUnionSlot(Blurring, "law")
    ensures JudgeClassTable("law")
      == Some(VariantNames(InputType(Blurring, "law").value.subclass) + PickerExtra("law"))
  {
    BlurringLawDescriptor();
    BlurringLawJudgeNames();
    var variants := [Some(Cls(InverseSquareLaw)), Some(Cls(LinearLaw))];
    assert PickerExtra("law") == [];
    assert VariantNames(variants) + PickerExtra("law") == VariantNames(variants);
  }

  /** `Blurring.input_type('law')` written out. */
  lemma BlurringLawDescriptor()
    ensures InputType(Blurring, "law") == Some(Union("BlurringLaw", [Some(Cls(InverseSquareLaw)),
      Some(Cls(LinearLaw))]))
  {
    InputTypeOfBlurring("law");
  }

  /** The list `judgeClass('law')` offers, as the names of those variants. */
  lemma BlurringLawJudgeNames()
    ensures JudgeClassTable("law") == Some(VariantNames([Some(Cls(InverseSquareLaw)),
      Some(Cls(LinearLaw))]))
  {
    BlurringLawVariantNames();
  }

  /** For each name `judgeClass('law')` offers, the picker builds what `Blurring.choose_subclass`
      stores, up to the differences `PickerVersus` allows. */
  lemma BlurringLawPicks()
    ensures forall n :: n in ["InverseSquareLaw", "LinearLaw"] ==>
      && PickerVersus(ChooseTable(Blurring, "law", n), PickTable(n))
      && (PickTable(n) == Nothing <==> n == "undefined")
  {
  }

  /** `judgeClass('insert_translator')` offers the variants `VoxelizedSource.input_type('insert_translator')` lists. */
  lemma VoxelizedSourceInsertTranslatorJudgeList()
    ensures IsUnionSlot(VoxelizedSource, "insert_translator")
    ensures JudgeClassTable("insert_translator")
      == Some(VariantNames(InputType(VoxelizedSource, "insert_translator").value.subclass) + PickerExtra("insert_translator"))
  {
    VoxelizedSourceInsertTranslatorDescriptor();
    VoxelizedSourceInsertTranslatorJudgeNames();
    var variants := [Some(Cls(LinearTranslator)), Some(Cls(RangeTranslator))];
    assert PickerExtra("insert_translator") == [];
    assert VariantNames(variants) + PickerExtra("insert_translator") == VariantNames(variants);
  }

  /** `VoxelizedSource.input_type('insert_translator')` written out. */
  lemma VoxelizedSourceInsertTranslatorDescriptor()
    ensures InputType(VoxelizedSource, "insert_translator") == Some(Union("Translator", [
      Some(Cls(LinearTranslator)), Some(Cls(RangeTranslator))]))
  {
    InputTypeOfVoxelizedSource("insert_translator");
  }

  /** The list `judgeClass('insert_translator')` offers, as the names of those variants. */
  lemma VoxelizedSourceInsertTranslatorJudgeNames()
    ensures JudgeClassTable("insert_translator") == Some(VariantNames([Some(Cls(LinearTranslator)),
      Some(Cls(RangeTranslator))]))
  {
    VoxelizedSourceInsertTranslatorVariantNames();
  }

  /** For each name `judgeClass('insert_translator')` offers, the picker builds what `VoxelizedSource.choose_subclass`
      stores, up to the differences `PickerVersus` allows. */
  lemma VoxelizedSourceInsertTranslatorPicks()
    ensures forall n :: n in ["LinearTranslator", "RangeTranslator"] ==>
      && PickerVersus(ChooseTable(VoxelizedSource, "insert_translator", n), PickTable(n))
      && (PickTable(n) == Nothing <==> n == "undefined")
  {
  }

  /** `judgeClass('time_slice')` offers the variants `Acquisition.input_type('time_slice')` lists. */
  lemma AcquisitionTimeSliceJudgeList()
    ensures IsUnionSlot(Acquisition, "time_slice")
    ensures JudgeClassTable("time_slice")
      == Some(VariantNames(InputType(Acquisition, "time_slice").value.subclass) + PickerExtra("time_slice"))
  {
    AcquisitionTimeSliceDescriptor();
    AcquisitionTimeSliceJudgeNames();
    var variants := [Some(Cls(Value)), Some(Prim(TString))];
    assert PickerExtra("time_slice") == [];
    assert VariantNames(variants) + PickerExtra("time_slice") == VariantNames(variants);
  }

  /** `Acquisition.input_type('time_slice')` written out. */
  lemma AcquisitionTimeSliceDescriptor()
    ensures InputType(Acquisition, "time_slice") == Some(Union("Value[] | string", [
      Some(Cls(Value)), Some(Prim(TString))]))
  {
    InputTypeOfAcquisition("time_slice");
  }

  /** The list `judgeClass('time_slice')` offers, as the names of those variants. */
  lemma AcquisitionTimeSliceJudgeNames()
    ensures JudgeClassTable("time_slice") == Some(VariantNames([Some(Cls(Value)),
      Some(Prim(TString))]))
  {
    AcquisitionTimeSliceVariantNames();
  }

  /** For each name `judgeClass('time_slice')` offers, the picker builds what `Acquisition.choose_subclass`
      stores, up to the differences `PickerVersus` allows. */
  lemma AcquisitionTimeSlicePicks()
    ensures forall n :: n in ["Value", "string"] ==>
      && PickerVersus(ChooseTable(Acquisition, "time_slice", n), PickTable(n))
      && (PickTable(n) == Nothing <==> n == "undefined")
  {
  }

  /** `judgeClass('engine_seed')` offers the variants `Acquisition.input_type('engine_seed')` lists. */
  lemma AcquisitionEngineSeedJudgeList()
    ensures IsUnionSlot(Acquisition, "engine_seed")
    ensures JudgeClassTable("engine_seed")
      == Some(VariantNames(InputType(Acquisition, "engine_seed").value.subclass) + PickerExtra("engine_seed"))
  {
    AcquisitionEngineSeedDescriptor();
    AcquisitionEngineSeedJudgeNames();
    var variants := [Some(Prim(TNumber)), Some(Prim(TString))];
    assert PickerExtra("engine_seed") == [];
    assert VariantNames(variants) + PickerExtra("engine_seed") == VariantNames(variants);
  }

  /** `Acquisition.input_type('engine_seed')` written out. */
  lemma AcquisitionEngineSeedDescriptor()
    ensures InputType(Acquisition, "engine_seed") == Some(Union("number | string", [
      Some(Prim(TNumber)), Some(Prim(TString))]))
  {
    InputTypeOfAcquisition("engine_seed");
  }

  /** The list `judgeClass('engine_seed')` offers, as the names of those variants. */
  lemma AcquisitionEngineSeedJudgeNames()
    ensures JudgeClassTable("engine_seed") == Some(VariantNames([Some(Prim(TNumber)),
      Some(Prim(TString))]))
  {
    AcquisitionEngineSeedVariantNames();
  }

  /** For each name `judgeClass('engine_seed')` offers, the picker builds what `Acquisition.choose_subclass`
      stores, up to the differences `PickerVersus` allows. */
  lemma AcquisitionEngineSeedPicks()
    ensures forall n :: n in ["number", "string"] ==>
      && PickerVersus(ChooseTable(Acquisition, "engine_seed", n), PickTable(n))
      && (PickTable(n) == Nothing <==> n == "undefined")
  {
  }

  /** For every field it has a list for, `judgeClass` offers the field's variants as
      `input_type` lists them; the Level fields of LocalEfficiency list the string `'undefined'`
      last, where `input_type` has the value `undefined` first. */
  lemma JudgeClassListsVariants(c: ClassName, key: string)
    requires (c, key) in PickerSlots
    ensures IsUnionSlot(c, key)
    ensures JudgeClassTable(key) == Some(VariantNames(InputType(c, key).value.subclass) + PickerExtra(key))
  {
    if (c, key) == (Geometry, "scanner") {
      GeometryScannerJudgeList();
    } else if (c, key) == (Geometry, "phantom") {
      GeometryPhantomJudgeList();
    } else if (c, key) == (Volume, "shape") {
      VolumeShapeJudgeList();
    } else if (c, key) == (Noise, "deltaT_distribution") {
      NoiseDeltaTDistributionJudgeList();
    } else if (c, key) == (Noise, "energy_distribution") {
      NoiseEnergyDistributionJudgeList();
    } else if (c, key) == (LocalEfficiency, "Level1") {
      LocalEfficiencyLevel1JudgeList();
    } else if (c, key) == (LocalEfficiency, "Level2") {
      LocalEfficiencyLevel2JudgeList();
    } else if (c, key) == (Blurring, "law") {
      BlurringLawJudgeList();
    } else if (c, key) == (VoxelizedSource, "insert_translator") {
      VoxelizedSourceInsertTranslatorJudgeList();
    } else if (c, key) == (Acquisition, "time_slice") {
      AcquisitionTimeSliceJudgeList();
    } else if (c, key) == (Acquisition, "engine_seed") {
      AcquisitionEngineSeedJudgeList();
    }
  }

  /** For a name `judgeClass` offers, the picker builds what the table of `choose_subclass`
      stores for that name. */
  lemma PickerAgreesWithChooseTable(c: ClassName, key: string, n: string)
    requires (c, key) in PickerSlots && JudgeClassTable(key).Some? && n in JudgeClassTable(key).value
    ensures HasChooseSubclass(c) && PickerVersus(ChooseTable(c, key, n), PickTable(n))
  {
    if (c, key) == (Geometry, "scanner") {
      GeometryScannerPicks();
    } else if (c, key) == (Geometry, "phantom") {
      GeometryPhantomPicks();
    } else if (c, key) == (Volume, "shape") {
      VolumeShapePicksFront();
      VolumeShapePicksBack();
    } else if (c, key) == (Noise, "deltaT_distribution") {
      NoiseDeltaTDistributionPicks();
    } else if (c, key) == (Noise, "energy_distribution") {
      NoiseEnergyDistributionPicks();
    } else if (c, key) == (LocalEfficiency, "Level1") {
      LocalEfficiencyLevel1Picks();
    } else if (c, key) == (LocalEfficiency, "Level2") {
      LocalEfficiencyLevel2Picks();
    } else if (c, key) == (Blurring, "law") {
      BlurringLawPicks();
    } else if (c, key) == (VoxelizedSource, "insert_translator") {
      VoxelizedSourceInsertTranslatorPicks();
    } else if (c, key) == (Acquisition, "time_slice") {
      AcquisitionTimeSlicePicks();
    } else if (c, key) == (Acquisition, "engine_seed") {
      AcquisitionEngineSeedPicks();
    }
  }

  /** Picking a name `judgeClass` offers builds the item that `choose_subclass` would store, up to
      the differences `PickerVersus` allows. */
  lemma PickerAgreesWithChooseSubclass(c: ClassName, key: string, n: string)
    requires (c, key) in PickerSlots && JudgeClassTable(key).Some? && n in JudgeClassTable(key).value
    ensures PickerVersus(SamChoice(c, key, n), PickTable(n))
  {
    PickerAgreesWithChooseTable(c, key, n);
    ChooseTableIsSamChoice(c, key, n);
  }

  /** `judgeClass` has a list for every union field except `QuantumEfficiency.unique_qe` and
      `ChooseSource.choose_source`: those two cannot be picked through this component. */
  lemma JudgeClassCoversUnions(c: ClassName, key: string)
    requires IsUnionSlot(c, key)
    ensures (c, key) in PickerSlots || (c, key) in {(QuantumEfficiency, "unique_qe"), (ChooseSource, "choose_source")}
    ensures (c, key) in PickerSlots <==> JudgeClassTable(key).Some?
  {
    UnionSlotsExactly(c, key);
    JudgeClassKeys(key);
  }

  /** `judgeClass` has a list exactly for the field names of `PickerSlots`. */
  lemma JudgeClassKeys(key: string)
    ensures JudgeClassTable(key).Some? <==> key in PickerKeys
  {
  }

  /** Every name `judgeClass` offers builds an item, except the string `'undefined'`. */
  lemma OfferedNamesBuildItems(key: string, n: string)
    requires JudgeClassTable(key).Some? && n in JudgeClassTable(key).value
    ensures PickTable(n) == Nothing <==> n == "undefined"
  {
    if key == "scanner" {
      GeometryScannerPicks();
    } else if key == "phantom" {
      GeometryPhantomPicks();
    } else if key == "shape" {
      VolumeShapePicksFront();
      VolumeShapePicksBack();
    } else if key == "deltaT_distribution" {
      NoiseDeltaTDistributionPicks();
    } else if key == "energy_distribution" {
      NoiseEnergyDistributionPicks();
    } else if key == "Level1" {
      LocalEfficiencyLevel1Picks();
    } else if key == "Level2" {
      LocalEfficiencyLevel2Picks();
    } else if key == "law" {
      BlurringLawPicks();
    } else if key == "insert_translator" {
      VoxelizedSourceInsertTranslatorPicks();
    } else if key == "time_slice" {
      AcquisitionTimeSlicePicks();
    } else if key == "engine_seed" {
      AcquisitionEngineSeedPicks();
    }
  }
}
