/** Values, type names and field descriptors of the SAM configuration tree (src/app/SAM.ts). */
module SamTypes {

  datatype Option<+T> = None | Some(value: T)

  /** The classes of SAM.ts that have both a constructor and an `input_type` lookup. The abstract
      bases (System, Shape, Distribution, BlurringLaw, Translator) are never instantiated on their
      own; their fields are folded into their subclasses. */
  datatype ClassName =
    | Geometry | Scanner | CTscanner | CylindricalPET | CPET | ECAT | ECATAccel | OPET
    | SPECThead | Volume | Box | Sphere | Cylinder | Cone | Ellipsoid | EllipticalTube
    | Tessellated | TetMeshBox | TRPD | Hexagone | Wedge | Appearance | VoxelizedPhantom | Vec3
    | Value | Physics | CutInRegion | Process | Model | SetE | Flat | Gaussian | Exponential
    | Manual | File | Digitizer | Adder | Readout | Blurring | InverseSquareLaw | LinearLaw
    | CrystalBlurring | LocalBlurring | TransferEfficiency | LightYield
    | IntrinsicResolutionBlurring | QuantumEfficiency | Spblurring | Calibration | Crosstalk
    | Thresholder | Upholder | Window | SigmoidalThresholder | TimeResolution | Noise
    | LocalEfficiency | Buffer | Pileup | DeadTime | Coincidences | CoincidenceSorter
    | ChooseSource | Source | VoxelizedSource | LinearTranslator | RangeTranslator | DataOutput
    | Ascii | Root | Interfile | Sinogram | Ecat7 | Lmf | ImageCT | Acquisition | MaterialDatabase

  /** The primitive type names a descriptor can mention: 'string', 'number' and 'boolean'. */
  datatype Primitive = TString | TNumber | TBoolean

  /** A type name as it appears inside a descriptor: a primitive or a node class. */
  datatype TypeName = Prim(p: Primitive) | Cls(c: ClassName)

  /** What `input_type(key)` returns for a known key:
      - `Single(t)`: the bare string `'string'`, `'Volume'`, ...;
      - `ArrayOf(ts)`: an array of type names, used for a fixed tuple (`['number', 'number']`)
        and, with one node class, for a list of nodes (`['Process']`);
      - `Union(type, subclass)`: the tagged union `{type, subclass}`; an entry of `subclass` is a type
        name or the JavaScript value `undefined` (None). */
  datatype Descriptor =
    | Single(t: TypeName)
    | ArrayOf(items: seq<TypeName>)
    | Union(typeName: string, subclass: seq<Option<TypeName>>)

  /** A JavaScript value held by a field. `undefined` (a union slot not yet chosen) and `null` (an
      empty number) are distinct. Numbers are opaque: no arithmetic is involved. A node object is
      held by reference. */
  datatype JsValue =
    | Undefined
    | Null
    | Bool(b: bool)
    | Num(n: int)
    | Str(s: string)
    | Arr(elems: seq<JsValue>)
    | Ref(node: Node)

  /** A node of the configuration tree: an instance of one of the classes, holding its own
      properties, the view that `Object.keys` and `input_type` give. */
  class Node {
    const cls: ClassName
    var fields: map<string, JsValue>

    constructor (c: ClassName, f: map<string, JsValue>)
      ensures cls == c && fields == f
    {
      cls := c;
      fields := f;
    }
  }

  /** The source name of a class. */
  function ClassNameString(c: ClassName): string
  {
    match c
    case Geometry => "Geometry"
    case Scanner => "Scanner"
    case CTscanner => "CTscanner"
    case CylindricalPET => "CylindricalPET"
    case CPET => "CPET"
    case ECAT => "ECAT"
    case ECATAccel => "ECATAccel"
    case OPET => "OPET"
    case SPECThead => "SPECThead"
    case Volume => "Volume"
    case Box => "Box"
    case Sphere => "Sphere"
    case Cylinder => "Cylinder"
    case Cone => "Cone"
    case Ellipsoid => "Ellipsoid"
    case EllipticalTube => "EllipticalTube"
    case Tessellated => "Tessellated"
    case TetMeshBox => "TetMeshBox"
    case TRPD => "TRPD"
    case Hexagone => "Hexagone"
    case Wedge => "Wedge"
    case Appearance => "Appearance"
    case VoxelizedPhantom => "VoxelizedPhantom"
    case Vec3 => "Vec3"
    case Value => "Value"
    case Physics => "Physics"
    case CutInRegion => "CutInRegion"
    case Process => "Process"
    case Model => "Model"
    case SetE => "SetE"
    case Flat => "Flat"
    case Gaussian => "Gaussian"
    case Exponential => "Exponential"
    case Manual => "Manual"
    case File => "File"
    case Digitizer => "Digitizer"
    case Adder => "Adder"
    case Readout => "Readout"
    case Blurring => "Blurring"
    case InverseSquareLaw => "InverseSquareLaw"
    case LinearLaw => "LinearLaw"
    case CrystalBlurring => "CrystalBlurring"
    case LocalBlurring => "LocalBlurring"
    case TransferEfficiency => "TransferEfficiency"
    case LightYield => "LightYield"
    case IntrinsicResolutionBlurring => "IntrinsicResolutionBlurring"
    case QuantumEfficiency => "QuantumEfficiency"
    case Spblurring => "Spblurring"
    case Calibration => "Calibration"
    case Crosstalk => "Crosstalk"
    case Thresholder => "Thresholder"
    case Upholder => "Upholder"
    case Window => "Window"
    case SigmoidalThresholder => "SigmoidalThresholder"
    case TimeResolution => "TimeResolution"
    case Noise => "Noise"
    case LocalEfficiency => "LocalEfficiency"
    case Buffer => "Buffer"
    case Pileup => "Pileup"
    case DeadTime => "DeadTime"
    case Coincidences => "Coincidences"
    case CoincidenceSorter => "CoincidenceSorter"
    case ChooseSource => "ChooseSource"
    case Source => "Source"
    case VoxelizedSource => "VoxelizedSource"
    case LinearTranslator => "LinearTranslator"
    case RangeTranslator => "RangeTranslator"
    case DataOutput => "DataOutput"
    case Ascii => "Ascii"
    case Root => "Root"
    case Interfile => "Interfile"
    case Sinogram => "Sinogram"
    case Ecat7 => "Ecat7"
    case Lmf => "Lmf"
    case ImageCT => "ImageCT"
    case Acquisition => "Acquisition"
    case MaterialDatabase => "MaterialDatabase"
  }

  /** The string a descriptor uses for a type name. */
  function TypeNameString(t: TypeName): string
  {
    match t
    case Prim(TString) => "string"
    case Prim(TNumber) => "number"
    case Prim(TBoolean) => "boolean"
    case Cls(c) => ClassNameString(c)
  }

  /** The source names of the classes that unions list as variants, one lemma each: a proof about
      a list of variants cites them instead of evaluating `ClassNameString` on every entry. */
  lemma NameOfScanner() ensures ClassNameString(Scanner) == "Scanner" { }
  lemma NameOfCTscanner() ensures ClassNameString(CTscanner) == "CTscanner" { }
  lemma NameOfCylindricalPET() ensures ClassNameString(CylindricalPET) == "CylindricalPET" { }
  lemma NameOfCPET() ensures ClassNameString(CPET) == "CPET" { }
  lemma NameOfECAT() ensures ClassNameString(ECAT) == "ECAT" { }
  lemma NameOfECATAccel() ensures ClassNameString(ECATAccel) == "ECATAccel" { }
  lemma NameOfOPET() ensures ClassNameString(OPET) == "OPET" { }
  lemma NameOfSPECThead() ensures ClassNameString(SPECThead) == "SPECThead" { }
  lemma NameOfVolume() ensures ClassNameString(Volume) == "Volume" { }
  lemma NameOfVoxelizedPhantom() ensures ClassNameString(VoxelizedPhantom) == "VoxelizedPhantom" { }
  lemma NameOfBox() ensures ClassNameString(Box) == "Box" { }
  lemma NameOfSphere() ensures ClassNameString(Sphere) == "Sphere" { }
  lemma NameOfCylinder() ensures ClassNameString(Cylinder) == "Cylinder" { }
  lemma NameOfCone() ensures ClassNameString(Cone) == "Cone" { }
  lemma NameOfEllipsoid() ensures ClassNameString(Ellipsoid) == "Ellipsoid" { }
  lemma NameOfEllipticalTube() ensures ClassNameString(EllipticalTube) == "EllipticalTube" { }
  lemma NameOfTessellated() ensures ClassNameString(Tessellated) == "Tessellated" { }
  lemma NameOfTetMeshBox() ensures ClassNameString(TetMeshBox) == "TetMeshBox" { }
  lemma NameOfTRPD() ensures ClassNameString(TRPD) == "TRPD" { }
  lemma NameOfHexagone() ensures ClassNameString(Hexagone) == "Hexagone" { }
  lemma NameOfWedge() ensures ClassNameString(Wedge) == "Wedge" { }
  lemma NameOfInverseSquareLaw() ensures ClassNameString(InverseSquareLaw) == "InverseSquareLaw" { }
  lemma NameOfLinearLaw() ensures ClassNameString(LinearLaw) == "LinearLaw" { }
  lemma NameOfFlat() ensures ClassNameString(Flat) == "Flat" { }
  lemma NameOfGaussian() ensures ClassNameString(Gaussian) == "Gaussian" { }
  lemma NameOfExponential() ensures ClassNameString(Exponential) == "Exponential" { }
  lemma NameOfManual() ensures ClassNameString(Manual) == "Manual" { }
  lemma NameOfFile() ensures ClassNameString(File) == "File" { }
  lemma NameOfSource() ensures ClassNameString(Source) == "Source" { }
  lemma NameOfVoxelizedSource() ensures ClassNameString(VoxelizedSource) == "VoxelizedSource" { }
  lemma NameOfLinearTranslator() ensures ClassNameString(LinearTranslator) == "LinearTranslator" { }
  lemma NameOfRangeTranslator() ensures ClassNameString(RangeTranslator) == "RangeTranslator" { }
  lemma NameOfValue() ensures ClassNameString(Value) == "Value" { }
}
