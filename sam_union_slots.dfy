/** Which fields of the classes of src/app/SAM.ts are tagged unions. */
module SamUnionSlots {
  import opened SamTypes
  import opened SamInputType
  import opened SamChoose

  /** The union fields of all classes: class and key. */
  const UnionSlots: set<(ClassName, string)> :=
    {(Geometry, "scanner"), (Geometry, "phantom"), (Volume, "shape"), (Blurring, "law"),
     (QuantumEfficiency, "unique_qe"), (Noise, "deltaT_distribution"),
     (Noise, "energy_distribution"), (LocalEfficiency, "Level1"), (LocalEfficiency, "Level2"),
     (ChooseSource, "choose_source"), (VoxelizedSource, "insert_translator"),
     (Acquisition, "time_slice"), (Acquisition, "engine_seed")}

  /** A field is a union exactly when it is one of `UnionSlots`. */
  lemma UnionSlotsExactly(c: ClassName, key: string)
    ensures IsUnionSlot(c, key) <==> (c, key) in UnionSlots
  {
    match c
    case Geometry => GeometryUnionSlots(key);
    case Scanner => ScannerUnionSlots(key);
    case CTscanner => CTscannerUnionSlots(key);
    case CylindricalPET => CylindricalPETUnionSlots(key);
    case CPET => CPETUnionSlots(key);
    case ECAT => ECATUnionSlots(key);
    case ECATAccel => ECATAccelUnionSlots(key);
    case OPET => OPETUnionSlots(key);
    case SPECThead => SPECTheadUnionSlots(key);
    case Volume => VolumeUnionSlots(key);
    case Box => BoxUnionSlots(key);
    case Sphere => SphereUnionSlots(key);
    case Cylinder => CylinderUnionSlots(key);
    case Cone => ConeUnionSlots(key);
    case Ellipsoid => EllipsoidUnionSlots(key);
    case EllipticalTube => EllipticalTubeUnionSlots(key);
    case Tessellated => TessellatedUnionSlots(key);
    case TetMeshBox => TetMeshBoxUnionSlots(key);
    case TRPD => TRPDUnionSlots(key);
    case Hexagone => HexagoneUnionSlots(key);
    case Wedge => WedgeUnionSlots(key);
    case Appearance => AppearanceUnionSlots(key);
    case VoxelizedPhantom => VoxelizedPhantomUnionSlots(key);
    case Vec3 => Vec3UnionSlots(key);
    case Value => ValueUnionSlots(key);
    case Physics => PhysicsUnionSlots(key);
    case CutInRegion => CutInRegionUnionSlots(key);
    case Process => ProcessUnionSlots(key);
    case Model => ModelUnionSlots(key);
    case SetE => SetEUnionSlots(key);
    case Flat => FlatUnionSlots(key);
    case Gaussian => GaussianUnionSlots(key);
    case Exponential => ExponentialUnionSlots(key);
    case Manual => ManualUnionSlots(key);
    case File => FileUnionSlots(key);
    case Digitizer => DigitizerUnionSlots(key);
    case Adder => AdderUnionSlots(key);
    case Readout => ReadoutUnionSlots(key);
    case Blurring => BlurringUnionSlots(key);
    case InverseSquareLaw => InverseSquareLawUnionSlots(key);
    case LinearLaw => LinearLawUnionSlots(key);
    case CrystalBlurring => CrystalBlurringUnionSlots(key);
    case LocalBlurring => LocalBlurringUnionSlots(key);
    case TransferEfficiency => TransferEfficiencyUnionSlots(key);
    case LightYield => LightYieldUnionSlots(key);
    case IntrinsicResolutionBlurring => IntrinsicResolutionBlurringUnionSlots(key);
    case QuantumEfficiency => QuantumEfficiencyUnionSlots(key);
    case Spblurring => SpblurringUnionSlots(key);
    case Calibration => CalibrationUnionSlots(key);
    case Crosstalk => CrosstalkUnionSlots(key);
    case Thresholder => ThresholderUnionSlots(key);
    case Upholder => UpholderUnionSlots(key);
    case Window => WindowUnionSlots(key);
    case SigmoidalThresholder => SigmoidalThresholderUnionSlots(key);
    case TimeResolution => TimeResolutionUnionSlots(key);
    case Noise => NoiseUnionSlots(key);
    case LocalEfficiency => LocalEfficiencyUnionSlots(key);
    case Buffer => BufferUnionSlots(key);
    case Pileup => PileupUnionSlots(key);
    case DeadTime => DeadTimeUnionSlots(key);
    case Coincidences => CoincidencesUnionSlots(key);
    case CoincidenceSorter => CoincidenceSorterUnionSlots(key);
    case ChooseSource => ChooseSourceUnionSlots(key);
    case Source => SourceUnionSlots(key);
    case VoxelizedSource => VoxelizedSourceUnionSlots(key);
    case LinearTranslator => LinearTranslatorUnionSlots(key);
    case RangeTranslator => RangeTranslatorUnionSlots(key);
    case DataOutput => DataOutputUnionSlots(key);
    case Ascii => AsciiUnionSlots(key);
    case Root => RootUnionSlots(key);
    case Interfile => InterfileUnionSlots(key);
    case Sinogram => SinogramUnionSlots(key);
    case Ecat7 => Ecat7UnionSlots(key);
    case Lmf => LmfUnionSlots(key);
    case ImageCT => ImageCTUnionSlots(key);
    case Acquisition => AcquisitionUnionSlots(key);
    case MaterialDatabase => MaterialDatabaseUnionSlots(key);
  }

  /** The classes that own union fields are exactly the classes that have `choose_subclass`. */
  lemma UnionFieldsHaveChooser(c: ClassName)
    ensures HasChooseSubclass(c) <==> exists key :: IsUnionSlot(c, key)
  {
    if HasChooseSubclass(c) {
      var key := match c
        case Geometry => "scanner"
        case Volume => "shape"
        case Blurring => "law"
        case QuantumEfficiency => "unique_qe"
        case Noise => "deltaT_distribution"
        case LocalEfficiency => "Level1"
        case ChooseSource => "choose_source"
        case VoxelizedSource => "insert_translator"
        case Acquisition => "time_slice";
      UnionSlotsExactly(c, key);
    }
    forall key | IsUnionSlot(c, key)
      ensures HasChooseSubclass(c)
    {
      UnionSlotsExactly(c, key);
    }
  }

  /** The union fields of `Geometry`: `scanner`, `phantom`. */
  lemma GeometryUnionFields(key: string)
    ensures var d := Corrected(Geometry, key, GeometryInputType(key));
      d.Some? && d.value.Union? <==> key in {"scanner", "phantom"}
  {
  }

  /** The union fields of `Scanner` (it has none). */
  lemma ScannerUnionFields(key: string)
    ensures var d := Corrected(Scanner, key, ScannerInputType(key));
      !(d.Some? && d.value.Union?)
  {
  }

  /** The union fields of `CTscanner` (it has none). */
  lemma CTscannerUnionFields(key: string)
    ensures var d := Corrected(CTscanner, key, CTscannerInputType(key));
      !(d.Some? && d.value.Union?)
  {
  }

  /** The union fields of `CylindricalPET` (it has none). */
  lemma CylindricalPETUnionFields(key: string)
    ensures var d := Corrected(CylindricalPET, key, CylindricalPETInputType(key));
      !(d.Some? && d.value.Union?)
  {
  }

  /** The union fields of `CPET` (it has none). */
  lemma CPETUnionFields(key: string)
    ensures var d := Corrected(CPET, key, CPETInputType(key));
      !(d.Some? && d.value.Union?)
  {
  }

  /** The union fields of `ECAT` (it has none). */
  lemma ECATUnionFields(key: string)
    ensures var d := Corrected(ECAT, key, ECATInputType(key));
      !(d.Some? && d.value.Union?)
  {
  }

  /** The union fields of `ECATAccel` (it has none). */
  lemma ECATAccelUnionFields(key: string)
    ensures var d := Corrected(ECATAccel, key, ECATAccelInputType(key));
      !(d.Some? && d.value.Union?)
  {
  }

  /** The union fields of `OPET` (it has none). */
  lemma OPETUnionFields(key: string)
    ensures var d := Corrected(OPET, key, OPETInputType(key));
      !(d.Some? && d.value.Union?)
  {
  }

  /** The union fields of `SPECThead` (it has none). */
  lemma SPECTheadUnionFields(key: string)
    ensures var d := Corrected(SPECThead, key, SPECTheadInputType(key));
      !(d.Some? && d.value.Union?)
  {
  }

  /** The union fields of `Volume`: `shape`. */
  lemma VolumeUnionFields(key: string)
    ensures var d := Corrected(Volume, key, VolumeInputType(key));
      d.Some? && d.value.Union? <==> key in {"shape"}
  {
  }

  /** The union fields of `Box` (it has none). */
  lemma BoxUnionFields(key: string)
    ensures var d := Corrected(Box, key, BoxInputType(key));
      !(d.Some? && d.value.Union?)
  {
  }

  /** The union fields of `Sphere` (it has none). */
  lemma SphereUnionFields(key: string)
    ensures var d := Corrected(Sphere, key, SphereInputType(key));
      !(d.Some? && d.value.Union?)
  {
  }

  /** The union fields of `Cylinder` (it has none). */
  lemma CylinderUnionFields(key: string)
    ensures var d := Corrected(Cylinder, key, CylinderInputType(key));
      !(d.Some? && d.value.Union?)
  {
  }

  /** The union fields of `Cone` (it has none). */
  lemma ConeUnionFields(key: string)
    ensures var d := Corrected(Cone, key, ConeInputType(key));
      !(d.Some? && d.value.Union?)
  {
  }

  /** The union fields of `Ellipsoid` (it has none). */
  lemma EllipsoidUnionFields(key: string)
    ensures var d := Corrected(Ellipsoid, key, EllipsoidInputType(key));
      !(d.Some? && d.value.Union?)
  {
  }

  /** The union fields of `EllipticalTube` (it has none). */
  lemma EllipticalTubeUnionFields(key: string)
    ensures var d := Corrected(EllipticalTube, key, EllipticalTubeInputType(key));
      !(d.Some? && d.value.Union?)
  {
  }

  /** The union fields of `Tessellated` (it has none). */
  lemma TessellatedUnionFields(key: string)
    ensures var d := Corrected(Tessellated, key, TessellatedInputType(key));
      !(d.Some? && d.value.Union?)
  {
  }

  /** The union fields of `TetMeshBox` (it has none). */
  lemma TetMeshBoxUnionFields(key: string)
    ensures var d := Corrected(TetMeshBox, key, TetMeshBoxInputType(key));
      !(d.Some? && d.value.Union?)
  {
  }

  /** The union fields of `TRPD` (it has none). */
  lemma TRPDUnionFields(key: string)
    ensures var d := Corrected(TRPD, key, TRPDInputType(key));
      !(d.Some? && d.value.Union?)
  {
  }

  /** The union fields of `Hexagone` (it has none). */
  lemma HexagoneUnionFields(key: string)
    ensures var d := Corrected(Hexagone, key, HexagoneInputType(key));
      !(d.Some? && d.value.Union?)
  {
  }

  /** The union fields of `Wedge` (it has none). */
  lemma WedgeUnionFields(key: string)
    ensures var d := Corrected(Wedge, key, WedgeInputType(key));
      !(d.Some? && d.value.Union?)
  {
  }

  /** The union fields of `Appearance` (it has none). */
  lemma AppearanceUnionFields(key: string)
    ensures var d := Corrected(Appearance, key, AppearanceInputType(key));
      !(d.Some? && d.value.Union?)
  {
  }

  /** The union fields of `VoxelizedPhantom` (it has none). */
  lemma VoxelizedPhantomUnionFields(key: string)
    ensures var d := Corrected(VoxelizedPhantom, key, VoxelizedPhantomInputType(key));
      !(d.Some? && d.value.Union?)
  {
  }

  /** The union fields of `Vec3` (it has none). */
  lemma Vec3UnionFields(key: string)
    ensures var d := Corrected(Vec3, key, Vec3InputType(key));
      !(d.Some? && d.value.Union?)
  {
  }

  /** The union fields of `Value` (it has none). */
  lemma ValueUnionFields(key: string)
    ensures var d := Corrected(Value, key, ValueInputType(key));
      !(d.Some? && d.value.Union?)
  {
  }

  /** The union fields of `Physics` (it has none). */
  lemma PhysicsUnionFields(key: string)
    ensures var d := Corrected(Physics, key, PhysicsInputType(key));
      !(d.Some? && d.value.Union?)
  {
  }

  /** The union fields of `CutInRegion` (it has none). */
  lemma CutInRegionUnionFields(key: string)
    ensures var d := Corrected(CutInRegion, key, CutInRegionInputType(key));
      !(d.Some? && d.value.Union?)
  {
  }

  /** The union fields of `Process` (it has none). */
  lemma ProcessUnionFields(key: string)
    ensures var d := Corrected(Process, key, ProcessInputType(key));
      !(d.Some? && d.value.Union?)
  {
  }

  /** The union fields of `Model` (it has none). */
  lemma ModelUnionFields(key: string)
    ensures var d := Corrected(Model, key, ModelInputType(key));
      !(d.Some? && d.value.Union?)
  {
  }

  /** The union fields of `SetE` (it has none). */
  lemma SetEUnionFields(key: string)
    ensures var d := Corrected(SetE, key, SetEInputType(key));
      !(d.Some? && d.value.Union?)
  {
  }

  /** The union fields of `Flat` (it has none). */
  lemma FlatUnionFields(key: string)
    ensures var d := Corrected(Flat, key, FlatInputType(key));
      !(d.Some? && d.value.Union?)
  {
  }

  /** The union fields of `Gaussian` (it has none). */
  lemma GaussianUnionFields(key: string)
    ensures var d := Corrected(Gaussian, key, GaussianInputType(key));
      !(d.Some? && d.value.Union?)
  {
  }

  /** The union fields of `Exponential` (it has none). */
  lemma ExponentialUnionFields(key: string)
    ensures var d := Corrected(Exponential, key, ExponentialInputType(key));
      !(d.Some? && d.value.Union?)
  {
  }

  /** The union fields of `Manual` (it has none). */
  lemma ManualUnionFields(key: string)
    ensures var d := Corrected(Manual, key, ManualInputType(key));
      !(d.Some? && d.value.Union?)
  {
  }

  /** The union fields of `File` (it has none). */
  lemma FileUnionFields(key: string)
    ensures var d := Corrected(File, key, FileInputType(key));
      !(d.Some? && d.value.Union?)
  {
  }

  /** The union fields of `Digitizer` (it has none). */
  lemma DigitizerUnionFields(key: string)
    ensures var d := Corrected(Digitizer, key, DigitizerInputType(key));
      !(d.Some? && d.value.Union?)
  {
  }

  /** The union fields of `Adder` (it has none). */
  lemma AdderUnionFields(key: string)
    ensures var d := Corrected(Adder, key, AdderInputType(key));
      !(d.Some? && d.value.Union?)
  {
  }

  /** The union fields of `Readout` (it has none). */
  lemma ReadoutUnionFields(key: string)
    ensures var d := Corrected(Readout, key, ReadoutInputType(key));
      !(d.Some? && d.value.Union?)
  {
  }

  /** The union fields of `Blurring`: `law`. */
  lemma BlurringUnionFields(key: string)
    ensures var d := Corrected(Blurring, key, BlurringInputType(key));
      d.Some? && d.value.Union? <==> key in {"law"}
  {
  }

  /** The union fields of `InverseSquareLaw` (it has none). */
  lemma InverseSquareLawUnionFields(key: string)
    ensures var d := Corrected(InverseSquareLaw, key, InverseSquareLawInputType(key));
      !(d.Some? && d.value.Union?)
  {
  }

  /** The union fields of `LinearLaw` (it has none). */
  lemma LinearLawUnionFields(key: string)
    ensures var d := Corrected(LinearLaw, key, LinearLawInputType(key));
      !(d.Some? && d.value.Union?)
  {
  }

  /** The union fields of `CrystalBlurring` (it has none). */
  lemma CrystalBlurringUnionFields(key: string)
    ensures var d := Corrected(CrystalBlurring, key, CrystalBlurringInputType(key));
      !(d.Some? && d.value.Union?)
  {
  }

  /** The union fields of `LocalBlurring` (it has none). */
  lemma LocalBlurringUnionFields(key: string)
    ensures var d := Corrected(LocalBlurring, key, LocalBlurringInputType(key));
      !(d.Some? && d.value.Union?)
  {
  }

  /** The union fields of `TransferEfficiency` (it has none). */
  lemma TransferEfficiencyUnionFields(key: string)
    ensures var d := Corrected(TransferEfficiency, key, TransferEfficiencyInputType(key));
      !(d.Some? && d.value.Union?)
  {
  }

  /** The union fields of `LightYield` (it has none). */
  lemma LightYieldUnionFields(key: string)
    ensures var d := Corrected(LightYield, key, LightYieldInputType(key));
      !(d.Some? && d.value.Union?)
  {
  }

  /** The union fields of `IntrinsicResolutionBlurring` (it has none). */
  lemma IntrinsicResolutionBlurringUnionFields(key: string)
    ensures var d := Corrected(IntrinsicResolutionBlurring, key, IntrinsicResolutionBlurringInputType(key));
      !(d.Some? && d.value.Union?)
  {
  }

  /** The union fields of `QuantumEfficiency`: `unique_qe`. */
  lemma QuantumEfficiencyUnionFields(key: string)
    ensures var d := Corrected(QuantumEfficiency, key, QuantumEfficiencyInputType(key));
      d.Some? && d.value.Union? <==> key in {"unique_qe"}
  {
  }

  /** The union fields of `Spblurring` (it has none). */
  lemma SpblurringUnionFields(key: string)
    ensures var d := Corrected(Spblurring, key, SpblurringInputType(key));
      !(d.Some? && d.value.Union?)
  {
  }

  /** The union fields of `Calibration` (it has none). */
  lemma CalibrationUnionFields(key: string)
    ensures var d := Corrected(Calibration, key, CalibrationInputType(key));
      !(d.Some? && d.value.Union?)
  {
  }

  /** The union fields of `Crosstalk` (it has none). */
  lemma CrosstalkUnionFields(key: string)
    ensures var d := Corrected(Crosstalk, key, CrosstalkInputType(key));
      !(d.Some? && d.value.Union?)
  {
  }

  /** The union fields of `Thresholder` (it has none). */
  lemma ThresholderUnionFields(key: string)
    ensures var d := Corrected(Thresholder, key, ThresholderInputType(key));
      !(d.Some? && d.value.Union?)
  {
  }

  /** The union fields of `Upholder` (it has none). */
  lemma UpholderUnionFields(key: string)
    ensures var d := Corrected(Upholder, key, UpholderInputType(key));
      !(d.Some? && d.value.Union?)
  {
  }

  /** The union fields of `Window` (it has none). */
  lemma WindowUnionFields(key: string)
    ensures var d := Corrected(Window, key, WindowInputType(key));
      !(d.Some? && d.value.Union?)
  {
  }

  /** The union fields of `SigmoidalThresholder` (it has none). */
  lemma SigmoidalThresholderUnionFields(key: string)
    ensures var d := Corrected(SigmoidalThresholder, key, SigmoidalThresholderInputType(key));
      !(d.Some? && d.value.Union?)
  {
  }

  /** The union fields of `TimeResolution` (it has none). */
  lemma TimeResolutionUnionFields(key: string)
    ensures var d := Corrected(TimeResolution, key, TimeResolutionInputType(key));
      !(d.Some? && d.value.Union?)
  {
  }

  /** The union fields of `Noise`: `deltaT_distribution`, `energy_distribution`. */
  lemma NoiseUnionFields(key: string)
    ensures var d := Corrected(Noise, key, NoiseInputType(key));
      d.Some? && d.value.Union? <==> key in {"deltaT_distribution", "energy_distribution"}
  {
  }

  /** The union fields of `LocalEfficiency`: `Level1`, `Level2`. */
  lemma LocalEfficiencyUnionFields(key: string)
    ensures var d := Corrected(LocalEfficiency, key, LocalEfficiencyInputType(key));
      d.Some? && d.value.Union? <==> key in {"Level1", "Level2"}
  {
  }

  /** The union fields of `Buffer` (it has none). */
  lemma BufferUnionFields(key: string)
    ensures var d := Corrected(Buffer, key, BufferInputType(key));
      !(d.Some? && d.value.Union?)
  {
  }

  /** The union fields of `Pileup` (it has none). */
  lemma PileupUnionFields(key: string)
    ensures var d := Corrected(Pileup, key, PileupInputType(key));
      !(d.Some? && d.value.Union?)
  {
  }

  /** The union fields of `DeadTime` (it has none). */
  lemma DeadTimeUnionFields(key: string)
    ensures var d := Corrected(DeadTime, key, DeadTimeInputType(key));
      !(d.Some? && d.value.Union?)
  {
  }

  /** The union fields of `Coincidences` (it has none). */
  lemma CoincidencesUnionFields(key: string)
    ensures var d := Corrected(Coincidences, key, CoincidencesInputType(key));
      !(d.Some? && d.value.Union?)
  {
  }

  /** The union fields of `CoincidenceSorter` (it has none). */
  lemma CoincidenceSorterUnionFields(key: string)
    ensures var d := Corrected(CoincidenceSorter, key, CoincidenceSorterInputType(key));
      !(d.Some? && d.value.Union?)
  {
  }

  /** The union fields of `ChooseSource`: `choose_source`. */
  lemma ChooseSourceUnionFields(key: string)
    ensures var d := Corrected(ChooseSource, key, ChooseSourceInputType(key));
      d.Some? && d.value.Union? <==> key in {"choose_source"}
  {
  }

  /** The union fields of `Source` (it has none). */
  lemma SourceUnionFields(key: string)
    ensures var d := Corrected(Source, key, SourceInputType(key));
      !(d.Some? && d.value.Union?)
  {
  }

  /** The union fields of `VoxelizedSource`: `insert_translator`. */
  lemma VoxelizedSourceUnionFields(key: string)
    ensures var d := Corrected(VoxelizedSource, key, VoxelizedSourceInputType(key));
      d.Some? && d.value.Union? <==> key in {"insert_translator"}
  {
  }

  /** The union fields of `LinearTranslator` (it has none). */
  lemma LinearTranslatorUnionFields(key: string)
    ensures var d := Corrected(LinearTranslator, key, LinearTranslatorInputType(key));
      !(d.Some? && d.value.Union?)
  {
  }

  /** The union fields of `RangeTranslator` (it has none). */
  lemma RangeTranslatorUnionFields(key: string)
    ensures var d := Corrected(RangeTranslator, key, RangeTranslatorInputType(key));
      !(d.Some? && d.value.Union?)
  {
  }

  /** The union fields of `DataOutput` (it has none). */
  lemma DataOutputUnionFields(key: string)
    ensures var d := Corrected(DataOutput, key, DataOutputInputType(key));
      !(d.Some? && d.value.Union?)
  {
  }

  /** The union fields of `Ascii` (it has none). */
  lemma AsciiUnionFields(key: string)
    ensures var d := Corrected(Ascii, key, AsciiInputType(key));
      !(d.Some? && d.value.Union?)
  {
  }

  /** The union fields of `Root` (it has none). */
  lemma RootUnionFields(key: string)
    ensures var d := Corrected(Root, key, RootInputType(key));
      !(d.Some? && d.value.Union?)
  {
  }

  /** The union fields of `Interfile` (it has none). */
  lemma InterfileUnionFields(key: string)
    ensures var d := Corrected(Interfile, key, InterfileInputType(key));
      !(d.Some? && d.value.Union?)
  {
  }

  /** The union fields of `Sinogram` (it has none). */
  lemma SinogramUnionFields(key: string)
    ensures var d := Corrected(Sinogram, key, SinogramInputType(key));
      !(d.Some? && d.value.Union?)
  {
  }

  /** The union fields of `Ecat7` (it has none). */
  lemma Ecat7UnionFields(key: string)
    ensures var d := Corrected(Ecat7, key, Ecat7InputType(key));
      !(d.Some? && d.value.Union?)
  {
  }

  /** The union fields of `Lmf` (it has none). */
  lemma LmfUnionFields(key: string)
    ensures var d := Corrected(Lmf, key, LmfInputType(key));
      !(d.Some? && d.value.Union?)
  {
  }

  /** The union fields of `ImageCT` (it has none). */
  lemma ImageCTUnionFields(key: string)
    ensures var d := Corrected(ImageCT, key, ImageCTInputType(key));
      !(d.Some? && d.value.Union?)
  {
  }

  /** The union fields of `Acquisition`: `time_slice`, `engine_seed`. */
  lemma AcquisitionUnionFields(key: string)
    ensures var d := Corrected(Acquisition, key, AcquisitionInputType(key));
      d.Some? && d.value.Union? <==> key in {"time_slice", "engine_seed"}
  {
  }

  /** The union fields of `MaterialDatabase` (it has none). */
  lemma MaterialDatabaseUnionFields(key: string)
    ensures var d := Corrected(MaterialDatabase, key, MaterialDatabaseInputType(key));
      !(d.Some? && d.value.Union?)
  {
  }

  /** `UnionSlots` lists the union fields of `Geometry`. */
  lemma GeometryUnionSlots(key: string)
    ensures IsUnionSlot(Geometry, key) <==> (Geometry, key) in UnionSlots
  {
    InputTypeOfGeometry(key);
    GeometryUnionFields(key);
  }

  /** `UnionSlots` lists the union fields of `Scanner`. */
  lemma ScannerUnionSlots(key: string)
    ensures IsUnionSlot(Scanner, key) <==> (Scanner, key) in UnionSlots
  {
    InputTypeOfScanner(key);
    ScannerUnionFields(key);
  }

  /** `UnionSlots` lists the union fields of `CTscanner`. */
  lemma CTscannerUnionSlots(key: string)
    ensures IsUnionSlot(CTscanner, key) <==> (CTscanner, key) in UnionSlots
  {
    InputTypeOfCTscanner(key);
    CTscannerUnionFields(key);
  }

  /** `UnionSlots` lists the union fields of `CylindricalPET`. */
  lemma CylindricalPETUnionSlots(key: string)
    ensures IsUnionSlot(CylindricalPET, key) <==> (CylindricalPET, key) in UnionSlots
  {
    InputTypeOfCylindricalPET(key);
    CylindricalPETUnionFields(key);
  }

  /** `UnionSlots` lists the union fields of `CPET`. */
  lemma CPETUnionSlots(key: string)
    ensures IsUnionSlot(CPET, key) <==> (CPET, key) in UnionSlots
  {
    InputTypeOfCPET(key);
    CPETUnionFields(key);
  }

  /** `UnionSlots` lists the union fields of `ECAT`. */
  lemma ECATUnionSlots(key: string)
    ensures IsUnionSlot(ECAT, key) <==> (ECAT, key) in UnionSlots
  {
    InputTypeOfECAT(key);
    ECATUnionFields(key);
  }

  /** `UnionSlots` lists the union fields of `ECATAccel`. */
  lemma ECATAccelUnionSlots(key: string)
    ensures IsUnionSlot(ECATAccel, key) <==> (ECATAccel, key) in UnionSlots
  {
    InputTypeOfECATAccel(key);
    ECATAccelUnionFields(key);
  }

  /** `UnionSlots` lists the union fields of `OPET`. */
  lemma OPETUnionSlots(key: string)
    ensures IsUnionSlot(OPET, key) <==> (OPET, key) in UnionSlots
  {
    InputTypeOfOPET(key);
    OPETUnionFields(key);
  }

  /** `UnionSlots` lists the union fields of `SPECThead`. */
  lemma SPECTheadUnionSlots(key: string)
    ensures IsUnionSlot(SPECThead, key) <==> (SPECThead, key) in UnionSlots
  {
    InputTypeOfSPECThead(key);
    SPECTheadUnionFields(key);
  }

  /** `UnionSlots` lists the union fields of `Volume`. */
  lemma VolumeUnionSlots(key: string)
    ensures IsUnionSlot(Volume, key) <==> (Volume, key) in UnionSlots
  {
    InputTypeOfVolume(key);
    VolumeUnionFields(key);
  }

  /** `UnionSlots` lists the union fields of `Box`. */
  lemma BoxUnionSlots(key: string)
    ensures IsUnionSlot(Box, key) <==> (Box, key) in UnionSlots
  {
    InputTypeOfBox(key);
    BoxUnionFields(key);
  }

  /** `UnionSlots` lists the union fields of `Sphere`. */
  lemma SphereUnionSlots(key: string)
    ensures IsUnionSlot(Sphere, key) <==> (Sphere, key) in UnionSlots
  {
    InputTypeOfSphere(key);
    SphereUnionFields(key);
  }

  /** `UnionSlots` lists the union fields of `Cylinder`. */
  lemma CylinderUnionSlots(key: string)
    ensures IsUnionSlot(Cylinder, key) <==> (Cylinder, key) in UnionSlots
  {
    InputTypeOfCylinder(key);
    CylinderUnionFields(key);
  }

  /** `UnionSlots` lists the union fields of `Cone`. */
  lemma ConeUnionSlots(key: string)
    ensures IsUnionSlot(Cone, key) <==> (Cone, key) in UnionSlots
  {
    InputTypeOfCone(key);
    ConeUnionFields(key);
  }

  /** `UnionSlots` lists the union fields of `Ellipsoid`. */
  lemma EllipsoidUnionSlots(key: string)
    ensures IsUnionSlot(Ellipsoid, key) <==> (Ellipsoid, key) in UnionSlots
  {
    InputTypeOfEllipsoid(key);
    EllipsoidUnionFields(key);
  }

  /** `UnionSlots` lists the union fields of `EllipticalTube`. */
  lemma EllipticalTubeUnionSlots(key: string)
    ensures IsUnionSlot(EllipticalTube, key) <==> (EllipticalTube, key) in UnionSlots
  {
    InputTypeOfEllipticalTube(key);
    EllipticalTubeUnionFields(key);
  }

  /** `UnionSlots` lists the union fields of `Tessellated`. */
  lemma TessellatedUnionSlots(key: string)
    ensures IsUnionSlot(Tessellated, key) <==> (Tessellated, key) in UnionSlots
  {
    InputTypeOfTessellated(key);
    TessellatedUnionFields(key);
  }

  /** `UnionSlots` lists the union fields of `TetMeshBox`. */
  lemma TetMeshBoxUnionSlots(key: string)
    ensures IsUnionSlot(TetMeshBox, key) <==> (TetMeshBox, key) in UnionSlots
  {
    InputTypeOfTetMeshBox(key);
    TetMeshBoxUnionFields(key);
  }

  /** `UnionSlots` lists the union fields of `TRPD`. */
  lemma TRPDUnionSlots(key: string)
    ensures IsUnionSlot(TRPD, key) <==> (TRPD, key) in UnionSlots
  {
    InputTypeOfTRPD(key);
    TRPDUnionFields(key);
  }

  /** `UnionSlots` lists the union fields of `Hexagone`. */
  lemma HexagoneUnionSlots(key: string)
    ensures IsUnionSlot(Hexagone, key) <==> (Hexagone, key) in UnionSlots
  {
    InputTypeOfHexagone(key);
    HexagoneUnionFields(key);
  }

  /** `UnionSlots` lists the union fields of `Wedge`. */
  lemma WedgeUnionSlots(key: string)
    ensures IsUnionSlot(Wedge, key) <==> (Wedge, key) in UnionSlots
  {
    InputTypeOfWedge(key);
    WedgeUnionFields(key);
  }

  /** `UnionSlots` lists the union fields of `Appearance`. */
  lemma AppearanceUnionSlots(key: string)
    ensures IsUnionSlot(Appearance, key) <==> (Appearance, key) in UnionSlots
  {
    InputTypeOfAppearance(key);
    AppearanceUnionFields(key);
  }

  /** `UnionSlots` lists the union fields of `VoxelizedPhantom`. */
  lemma VoxelizedPhantomUnionSlots(key: string)
    ensures IsUnionSlot(VoxelizedPhantom, key) <==> (VoxelizedPhantom, key) in UnionSlots
  {
    InputTypeOfVoxelizedPhantom(key);
    VoxelizedPhantomUnionFields(key);
  }

  /** `UnionSlots` lists the union fields of `Vec3`. */
  lemma Vec3UnionSlots(key: string)
    ensures IsUnionSlot(Vec3, key) <==> (Vec3, key) in UnionSlots
  {
    InputTypeOfVec3(key);
    Vec3UnionFields(key);
  }

  /** `UnionSlots` lists the union fields of `Value`. */
  lemma ValueUnionSlots(key: string)
    ensures IsUnionSlot(Value, key) <==> (Value, key) in UnionSlots
  {
    InputTypeOfValue(key);
    ValueUnionFields(key);
  }

  /** `UnionSlots` lists the union fields of `Physics`. */
  lemma PhysicsUnionSlots(key: string)
    ensures IsUnionSlot(Physics, key) <==> (Physics, key) in UnionSlots
  {
    InputTypeOfPhysics(key);
    PhysicsUnionFields(key);
  }

  /** `UnionSlots` lists the union fields of `CutInRegion`. */
  lemma CutInRegionUnionSlots(key: string)
    ensures IsUnionSlot(CutInRegion, key) <==> (CutInRegion, key) in UnionSlots
  {
    InputTypeOfCutInRegion(key);
    CutInRegionUnionFields(key);
  }

  /** `UnionSlots` lists the union fields of `Process`. */
  lemma ProcessUnionSlots(key: string)
    ensures IsUnionSlot(Process, key) <==> (Process, key) in UnionSlots
  {
    InputTypeOfProcess(key);
    ProcessUnionFields(key);
  }

  /** `UnionSlots` lists the union fields of `Model`. */
  lemma ModelUnionSlots(key: string)
    ensures IsUnionSlot(Model, key) <==> (Model, key) in UnionSlots
  {
    InputTypeOfModel(key);
    ModelUnionFields(key);
  }

  /** `UnionSlots` lists the union fields of `SetE`. */
  lemma SetEUnionSlots(key: string)
    ensures IsUnionSlot(SetE, key) <==> (SetE, key) in UnionSlots
  {
    InputTypeOfSetE(key);
    SetEUnionFields(key);
  }

  /** `UnionSlots` lists the union fields of `Flat`. */
  lemma FlatUnionSlots(key: string)
    ensures IsUnionSlot(Flat, key) <==> (Flat, key) in UnionSlots
  {
    InputTypeOfFlat(key);
    FlatUnionFields(key);
  }

  /** `UnionSlots` lists the union fields of `Gaussian`. */
  lemma GaussianUnionSlots(key: string)
    ensures IsUnionSlot(Gaussian, key) <==> (Gaussian, key) in UnionSlots
  {
    InputTypeOfGaussian(key);
    GaussianUnionFields(key);
  }

  /** `UnionSlots` lists the union fields of `Exponential`. */
  lemma ExponentialUnionSlots(key: string)
    ensures IsUnionSlot(Exponential, key) <==> (Exponential, key) in UnionSlots
  {
    InputTypeOfExponential(key);
    ExponentialUnionFields(key);
  }

  /** `UnionSlots` lists the union fields of `Manual`. */
  lemma ManualUnionSlots(key: string)
    ensures IsUnionSlot(Manual, key) <==> (Manual, key) in UnionSlots
  {
    InputTypeOfManual(key);
    ManualUnionFields(key);
  }

  /** `UnionSlots` lists the union fields of `File`. */
  lemma FileUnionSlots(key: string)
    ensures IsUnionSlot(File, key) <==> (File, key) in UnionSlots
  {
    InputTypeOfFile(key);
    FileUnionFields(key);
  }

  /** `UnionSlots` lists the union fields of `Digitizer`. */
  lemma DigitizerUnionSlots(key: string)
    ensures IsUnionSlot(Digitizer, key) <==> (Digitizer, key) in UnionSlots
  {
    InputTypeOfDigitizer(key);
    DigitizerUnionFields(key);
  }

  /** `UnionSlots` lists the union fields of `Adder`. */
  lemma AdderUnionSlots(key: string)
    ensures IsUnionSlot(Adder, key) <==> (Adder, key) in UnionSlots
  {
    InputTypeOfAdder(key);
    AdderUnionFields(key);
  }

  /** `UnionSlots` lists the union fields of `Readout`. */
  lemma ReadoutUnionSlots(key: string)
    ensures IsUnionSlot(Readout, key) <==> (Readout, key) in UnionSlots
  {
    InputTypeOfReadout(key);
    ReadoutUnionFields(key);
  }

  /** `UnionSlots` lists the union fields of `Blurring`. */
  lemma BlurringUnionSlots(key: string)
    ensures IsUnionSlot(Blurring, key) <==> (Blurring, key) in UnionSlots
  {
    InputTypeOfBlurring(key);
    BlurringUnionFields(key);
  }

  /** `UnionSlots` lists the union fields of `InverseSquareLaw`. */
  lemma InverseSquareLawUnionSlots(key: string)
    ensures IsUnionSlot(InverseSquareLaw, key) <==> (InverseSquareLaw, key) in UnionSlots
  {
    InputTypeOfInverseSquareLaw(key);
    InverseSquareLawUnionFields(key);
  }

  /** `UnionSlots` lists the union fields of `LinearLaw`. */
  lemma LinearLawUnionSlots(key: string)
    ensures IsUnionSlot(LinearLaw, key) <==> (LinearLaw, key) in UnionSlots
  {
    InputTypeOfLinearLaw(key);
    LinearLawUnionFields(key);
  }

  /** `UnionSlots` lists the union fields of `CrystalBlurring`. */
  lemma CrystalBlurringUnionSlots(key: string)
    ensures IsUnionSlot(CrystalBlurring, key) <==> (CrystalBlurring, key) in UnionSlots
  {
    InputTypeOfCrystalBlurring(key);
    CrystalBlurringUnionFields(key);
  }

  /** `UnionSlots` lists the union fields of `LocalBlurring`. */
  lemma LocalBlurringUnionSlots(key: string)
    ensures IsUnionSlot(LocalBlurring, key) <==> (LocalBlurring, key) in UnionSlots
  {
    InputTypeOfLocalBlurring(key);
    LocalBlurringUnionFields(key);
  }

  /** `UnionSlots` lists the union fields of `TransferEfficiency`. */
  lemma TransferEfficiencyUnionSlots(key: string)
    ensures IsUnionSlot(TransferEfficiency, key) <==> (TransferEfficiency, key) in UnionSlots
  {
    InputTypeOfTransferEfficiency(key);
    TransferEfficiencyUnionFields(key);
  }

  /** `UnionSlots` lists the union fields of `LightYield`. */
  lemma LightYieldUnionSlots(key: string)
    ensures IsUnionSlot(LightYield, key) <==> (LightYield, key) in UnionSlots
  {
    InputTypeOfLightYield(key);
    LightYieldUnionFields(key);
  }

  /** `UnionSlots` lists the union fields of `IntrinsicResolutionBlurring`. */
  lemma IntrinsicResolutionBlurringUnionSlots(key: string)
    ensures IsUnionSlot(IntrinsicResolutionBlurring, key) <==> (IntrinsicResolutionBlurring, key) in UnionSlots
  {
    InputTypeOfIntrinsicResolutionBlurring(key);
    IntrinsicResolutionBlurringUnionFields(key);
  }

  /** `UnionSlots` lists the union fields of `QuantumEfficiency`. */
  lemma QuantumEfficiencyUnionSlots(key: string)
    ensures IsUnionSlot(QuantumEfficiency, key) <==> (QuantumEfficiency, key) in UnionSlots
  {
    InputTypeOfQuantumEfficiency(key);
    QuantumEfficiencyUnionFields(key);
  }

  /** `UnionSlots` lists the union fields of `Spblurring`. */
  lemma SpblurringUnionSlots(key: string)
    ensures IsUnionSlot(Spblurring, key) <==> (Spblurring, key) in UnionSlots
  {
    InputTypeOfSpblurring(key);
    SpblurringUnionFields(key);
  }

  /** `UnionSlots` lists the union fields of `Calibration`. */
  lemma CalibrationUnionSlots(key: string)
    ensures IsUnionSlot(Calibration, key) <==> (Calibration, key) in UnionSlots
  {
    InputTypeOfCalibration(key);
    CalibrationUnionFields(key);
  }

  /** `UnionSlots` lists the union fields of `Crosstalk`. */
  lemma CrosstalkUnionSlots(key: string)
    ensures IsUnionSlot(Crosstalk, key) <==> (Crosstalk, key) in UnionSlots
  {
    InputTypeOfCrosstalk(key);
    CrosstalkUnionFields(key);
  }

  /** `UnionSlots` lists the union fields of `Thresholder`. */
  lemma ThresholderUnionSlots(key: string)
    ensures IsUnionSlot(Thresholder, key) <==> (Thresholder, key) in UnionSlots
  {
    InputTypeOfThresholder(key);
    ThresholderUnionFields(key);
  }

  /** `UnionSlots` lists the union fields of `Upholder`. */
  lemma UpholderUnionSlots(key: string)
    ensures IsUnionSlot(Upholder, key) <==> (Upholder, key) in UnionSlots
  {
    InputTypeOfUpholder(key);
    UpholderUnionFields(key);
  }

  /** `UnionSlots` lists the union fields of `Window`. */
  lemma WindowUnionSlots(key: string)
    ensures IsUnionSlot(Window, key) <==> (Window, key) in UnionSlots
  {
    InputTypeOfWindow(key);
    WindowUnionFields(key);
  }

  /** `UnionSlots` lists the union fields of `SigmoidalThresholder`. */
  lemma SigmoidalThresholderUnionSlots(key: string)
    ensures IsUnionSlot(SigmoidalThresholder, key) <==> (SigmoidalThresholder, key) in UnionSlots
  {
    InputTypeOfSigmoidalThresholder(key);
    SigmoidalThresholderUnionFields(key);
  }

  /** `UnionSlots` lists the union fields of `TimeResolution`. */
  lemma TimeResolutionUnionSlots(key: string)
    ensures IsUnionSlot(TimeResolution, key) <==> (TimeResolution, key) in UnionSlots
  {
    InputTypeOfTimeResolution(key);
    TimeResolutionUnionFields(key);
  }

  /** `UnionSlots` lists the union fields of `Noise`. */
  lemma NoiseUnionSlots(key: string)
    ensures IsUnionSlot(Noise, key) <==> (Noise, key) in UnionSlots
  {
    InputTypeOfNoise(key);
    NoiseUnionFields(key);
  }

  /** `UnionSlots` lists the union fields of `LocalEfficiency`. */
  lemma LocalEfficiencyUnionSlots(key: string)
    ensures IsUnionSlot(LocalEfficiency, key) <==> (LocalEfficiency, key) in UnionSlots
  {
    InputTypeOfLocalEfficiency(key);
    LocalEfficiencyUnionFields(key);
  }

  /** `UnionSlots` lists the union fields of `Buffer`. */
  lemma BufferUnionSlots(key: string)
    ensures IsUnionSlot(Buffer, key) <==> (Buffer, key) in UnionSlots
  {
    InputTypeOfBuffer(key);
    BufferUnionFields(key);
  }

  /** `UnionSlots` lists the union fields of `Pileup`. */
  lemma PileupUnionSlots(key: string)
    ensures IsUnionSlot(Pileup, key) <==> (Pileup, key) in UnionSlots
  {
    InputTypeOfPileup(key);
    PileupUnionFields(key);
  }

  /** `UnionSlots` lists the union fields of `DeadTime`. */
  lemma DeadTimeUnionSlots(key: string)
    ensures IsUnionSlot(DeadTime, key) <==> (DeadTime, key) in UnionSlots
  {
    InputTypeOfDeadTime(key);
    DeadTimeUnionFields(key);
  }

  /** `UnionSlots` lists the union fields of `Coincidences`. */
  lemma CoincidencesUnionSlots(key: string)
    ensures IsUnionSlot(Coincidences, key) <==> (Coincidences, key) in UnionSlots
  {
    InputTypeOfCoincidences(key);
    CoincidencesUnionFields(key);
  }

  /** `UnionSlots` lists the union fields of `CoincidenceSorter`. */
  lemma CoincidenceSorterUnionSlots(key: string)
    ensures IsUnionSlot(CoincidenceSorter, key) <==> (CoincidenceSorter, key) in UnionSlots
  {
    InputTypeOfCoincidenceSorter(key);
    CoincidenceSorterUnionFields(key);
  }

  /** `UnionSlots` lists the union fields of `ChooseSource`. */
  lemma ChooseSourceUnionSlots(key: string)
    ensures IsUnionSlot(ChooseSource, key) <==> (ChooseSource, key) in UnionSlots
  {
    InputTypeOfChooseSource(key);
    ChooseSourceUnionFields(key);
  }

  /** `UnionSlots` lists the union fields of `Source`. */
  lemma SourceUnionSlots(key: string)
    ensures IsUnionSlot(Source, key) <==> (Source, key) in UnionSlots
  {
    InputTypeOfSource(key);
    SourceUnionFields(key);
  }

  /** `UnionSlots` lists the union fields of `VoxelizedSource`. */
  lemma VoxelizedSourceUnionSlots(key: string)
    ensures IsUnionSlot(VoxelizedSource, key) <==> (VoxelizedSource, key) in UnionSlots
  {
    InputTypeOfVoxelizedSource(key);
    VoxelizedSourceUnionFields(key);
  }

  /** `UnionSlots` lists the union fields of `LinearTranslator`. */
  lemma LinearTranslatorUnionSlots(key: string)
    ensures IsUnionSlot(LinearTranslator, key) <==> (LinearTranslator, key) in UnionSlots
  {
    InputTypeOfLinearTranslator(key);
    LinearTranslatorUnionFields(key);
  }

  /** `UnionSlots` lists the union fields of `RangeTranslator`. */
  lemma RangeTranslatorUnionSlots(key: string)
    ensures IsUnionSlot(RangeTranslator, key) <==> (RangeTranslator, key) in UnionSlots
  {
    InputTypeOfRangeTranslator(key);
    RangeTranslatorUnionFields(key);
  }

  /** `UnionSlots` lists the union fields of `DataOutput`. */
  lemma DataOutputUnionSlots(key: string)
    ensures IsUnionSlot(DataOutput, key) <==> (DataOutput, key) in UnionSlots
  {
    InputTypeOfDataOutput(key);
    DataOutputUnionFields(key);
  }

  /** `UnionSlots` lists the union fields of `Ascii`. */
  lemma AsciiUnionSlots(key: string)
    ensures IsUnionSlot(Ascii, key) <==> (Ascii, key) in UnionSlots
  {
    InputTypeOfAscii(key);
    AsciiUnionFields(key);
  }

  /** `UnionSlots` lists the union fields of `Root`. */
  lemma RootUnionSlots(key: string)
    ensures IsUnionSlot(Root, key) <==> (Root, key) in UnionSlots
  {
    InputTypeOfRoot(key);
    RootUnionFields(key);
  }

  /** `UnionSlots` lists the union fields of `Interfile`. */
  lemma InterfileUnionSlots(key: string)
    ensures IsUnionSlot(Interfile, key) <==> (Interfile, key) in UnionSlots
  {
    InputTypeOfInterfile(key);
    InterfileUnionFields(key);
  }

  /** `UnionSlots` lists the union fields of `Sinogram`. */
  lemma SinogramUnionSlots(key: string)
    ensures IsUnionSlot(Sinogram, key) <==> (Sinogram, key) in UnionSlots
  {
    InputTypeOfSinogram(key);
    SinogramUnionFields(key);
  }

  /** `UnionSlots` lists the union fields of `Ecat7`. */
  lemma Ecat7UnionSlots(key: string)
    ensures IsUnionSlot(Ecat7, key) <==> (Ecat7, key) in UnionSlots
  {
    InputTypeOfEcat7(key);
    Ecat7UnionFields(key);
  }

  /** `UnionSlots` lists the union fields of `Lmf`. */
  lemma LmfUnionSlots(key: string)
    ensures IsUnionSlot(Lmf, key) <==> (Lmf, key) in UnionSlots
  {
    InputTypeOfLmf(key);
    LmfUnionFields(key);
  }

  /** `UnionSlots` lists the union fields of `ImageCT`. */
  lemma ImageCTUnionSlots(key: string)
    ensures IsUnionSlot(ImageCT, key) <==> (ImageCT, key) in UnionSlots
  {
    InputTypeOfImageCT(key);
    ImageCTUnionFields(key);
  }

  /** `UnionSlots` lists the union fields of `Acquisition`. */
  lemma AcquisitionUnionSlots(key: string)
    ensures IsUnionSlot(Acquisition, key) <==> (Acquisition, key) in UnionSlots
  {
    InputTypeOfAcquisition(key);
    AcquisitionUnionFields(key);
  }

  /** `UnionSlots` lists the union fields of `MaterialDatabase`. */
  lemma MaterialDatabaseUnionSlots(key: string)
    ensures IsUnionSlot(MaterialDatabase, key) <==> (MaterialDatabase, key) in UnionSlots
  {
    InputTypeOfMaterialDatabase(key);
    MaterialDatabaseUnionFields(key);
  }
}
