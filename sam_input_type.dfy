/** The `input_type(key)` lookups of src/app/SAM.ts: from a field name to its descriptor. */
module SamInputType {
  import opened SamTypes

  /** `Geometry.input_type(key)`. */
  function GeometryInputType(key: string): Option<Descriptor>
  {
    match key
    case "world" => Some(Single(Cls(Volume)))
    case "scanner" => Some(Union("System", [Some(Cls(Scanner)), Some(Cls(CTscanner)),
        Some(Cls(CylindricalPET)), Some(Cls(CPET)), Some(Cls(ECAT)), Some(Cls(ECATAccel)),
        Some(Cls(OPET)), Some(Cls(SPECThead))]))
    case "phantom" => Some(Union("Volume | VoxelizedPhantom", [Some(Cls(Volume)),
        Some(Cls(VoxelizedPhantom))]))
    case _ => None
  }

  /** `Scanner.input_type(key)`. */
  function ScannerInputType(key: string): Option<Descriptor>
  {
    match key
    case "base" => Some(Single(Cls(Volume)))
    case "level1" => Some(Single(Cls(Volume)))
    case "level2" => Some(Single(Cls(Volume)))
    case "level3" => Some(Single(Cls(Volume)))
    case "level4" => Some(Single(Cls(Volume)))
    case "level5" => Some(Single(Cls(Volume)))
    case _ => None
  }

  /** `CTscanner.input_type(key)`. */
  function CTscannerInputType(key: string): Option<Descriptor>
  {
    match key
    case "base" => Some(Single(Cls(Volume)))
    case "module" => Some(Single(Cls(Volume)))
    case "cluster" => Some(Single(Cls(Volume)))
    case "pixel" => Some(Single(Cls(Volume)))
    case _ => None
  }

  /** `CylindricalPET.input_type(key)`. */
  function CylindricalPETInputType(key: string): Option<Descriptor>
  {
    match key
    case "base" => Some(Single(Cls(Volume)))
    case "rsector" => Some(Single(Cls(Volume)))
    case "module" => Some(Single(Cls(Volume)))
    case "submodule" => Some(Single(Cls(Volume)))
    case "crystal" => Some(Single(Cls(Volume)))
    case "layer" => Some(Single(Cls(Volume)))
    case _ => None
  }

  /** `CPET.input_type(key)`. */
  function CPETInputType(key: string): Option<Descriptor>
  {
    match key
    case "base" => Some(Single(Cls(Volume)))
    case "sector" => Some(Single(Cls(Volume)))
    case "cassette" => Some(Single(Cls(Volume)))
    case "module" => Some(Single(Cls(Volume)))
    case "crystal" => Some(Single(Cls(Volume)))
    case "layer" => Some(Single(Cls(Volume)))
    case _ => None
  }

  /** `ECAT.input_type(key)`. */
  function ECATInputType(key: string): Option<Descriptor>
  {
    match key
    case "base" => Some(Single(Cls(Volume)))
    case "block" => Some(Single(Cls(Volume)))
    case "crystal" => Some(Single(Cls(Volume)))
    case _ => None
  }

  /** `ECATAccel.input_type(key)`. */
  function ECATAccelInputType(key: string): Option<Descriptor>
  {
    match key
    case "base" => Some(Single(Cls(Volume)))
    case "block" => Some(Single(Cls(Volume)))
    case "crystal" => Some(Single(Cls(Volume)))
    case _ => None
  }

  /** `OPET.input_type(key)`. */
  function OPETInputType(key: string): Option<Descriptor>
  {
    match key
    case "base" => Some(Single(Cls(Volume)))
    case "rsector" => Some(Single(Cls(Volume)))
    case "module" => Some(Single(Cls(Volume)))
    case "submodule" => Some(Single(Cls(Volume)))
    case "crystal" => Some(Single(Cls(Volume)))
    case "layer" => Some(Single(Cls(Volume)))
    case _ => None
  }

  /** `SPECThead.input_type(key)`. */
  function SPECTheadInputType(key: string): Option<Descriptor>
  {
    match key
    case "base" => Some(Single(Cls(Volume)))
    case "crystal" => Some(Single(Cls(Volume)))
    case "pixel" => Some(Single(Cls(Volume)))
    case _ => None
  }

  /** `Volume.input_type(key)`. */
  function VolumeInputType(key: string): Option<Descriptor>
  {
    match key
    case "name" => Some(Single(Prim(TString)))
    case "shape" => Some(Union("Shape", [Some(Cls(Box)), Some(Cls(Sphere)), Some(Cls(Cylinder)),
        Some(Cls(Cone)), Some(Cls(Ellipsoid)), Some(Cls(EllipticalTube)), Some(Cls(Tessellated)),
        Some(Cls(TetMeshBox)), Some(Cls(TRPD)), Some(Cls(Hexagone)), Some(Cls(Wedge))]))
    case "material" => Some(Single(Prim(TString)))
    case "attach" => Some(Single(Prim(TString)))
    case "appearance" => Some(Single(Cls(Appearance)))
    case _ => None
  }

  /** `Box.input_type(key)`. */
  function BoxInputType(key: string): Option<Descriptor>
  {
    match key
    case "size" => Some(Single(Cls(Vec3)))
    case _ => None
  }

  /** `Sphere.input_type(key)`. */
  function SphereInputType(key: string): Option<Descriptor>
  {
    match key
    case "rmin" => Some(Single(Cls(Value)))
    case "rmax" => Some(Single(Cls(Value)))
    case "phi_start" => Some(Single(Cls(Value)))
    case "delta_phi" => Some(Single(Cls(Value)))
    case "theta_start" => Some(Single(Cls(Value)))
    case "delta_theta" => Some(Single(Cls(Value)))
    case _ => None
  }

  /** `Cylinder.input_type(key)`. */
  function CylinderInputType(key: string): Option<Descriptor>
  {
    match key
    case "rmin" => Some(Single(Cls(Value)))
    case "rmax" => Some(Single(Cls(Value)))
    case "height" => Some(Single(Cls(Value)))
    case "phi_start" => Some(Single(Cls(Value)))
    case "delta_phi" => Some(Single(Cls(Value)))
    case _ => None
  }

  /** `Cone.input_type(key)`. */
  function ConeInputType(key: string): Option<Descriptor>
  {
    match key
    case "rmin1" => Some(Single(Cls(Value)))
    case "rmax1" => Some(Single(Cls(Value)))
    case "rmin2" => Some(Single(Cls(Value)))
    case "rmax2" => Some(Single(Cls(Value)))
    case "height" => Some(Single(Cls(Value)))
    case "phi_start" => Some(Single(Cls(Value)))
    case "delta_phi" => Some(Single(Cls(Value)))
    case _ => None
  }

  /** `Ellipsoid.input_type(key)`. */
  function EllipsoidInputType(key: string): Option<Descriptor>
  {
    match key
    case "size" => Some(Single(Cls(Vec3)))
    case "z_bottom_cut" => Some(Single(Cls(Value)))
    case "z_top_cut" => Some(Single(Cls(Value)))
    case _ => None
  }

  /** `EllipticalTube.input_type(key)`. */
  function EllipticalTubeInputType(key: string): Option<Descriptor>
  {
    match key
    case "long" => Some(Single(Cls(Value)))
    case "short" => Some(Single(Cls(Value)))
    case "height" => Some(Single(Cls(Value)))
    case _ => None
  }

  /** `Tessellated.input_type(key)`. */
  function TessellatedInputType(key: string): Option<Descriptor>
  {
    match key
    case "path_to_vertices_file" => Some(Single(Prim(TString)))
    case _ => None
  }

  /** `TetMeshBox.input_type(key)`. */
  function TetMeshBoxInputType(key: string): Option<Descriptor>
  {
    match key
    case "path_to_ele_file" => Some(Single(Prim(TString)))
    case "unit_of_length" => Some(Single(Prim(TString)))
    case "path_to_attribute_map" => Some(Single(Prim(TString)))
    case _ => None
  }

  /** `TRPD.input_type(key)`. */
  function TRPDInputType(key: string): Option<Descriptor>
  {
    match key
    case "x1" => Some(Single(Cls(Value)))
    case "y1" => Some(Single(Cls(Value)))
    case "x2" => Some(Single(Cls(Value)))
    case "y2" => Some(Single(Cls(Value)))
    case "z" => Some(Single(Cls(Value)))
    case "box_size" => Some(Single(Cls(Vec3)))
    case "box_pos" => Some(Single(Cls(Vec3)))
    case _ => None
  }

  /** `Hexagone.input_type(key)`. */
  function HexagoneInputType(key: string): Option<Descriptor>
  {
    match key
    case "radius" => Some(Single(Cls(Value)))
    case "height" => Some(Single(Cls(Value)))
    case _ => None
  }

  /** `Wedge.input_type(key)`. */
  function WedgeInputType(key: string): Option<Descriptor>
  {
    match key
    case "narrower_xlength" => Some(Single(Cls(Value)))
    case "size" => Some(Single(Cls(Vec3)))
    case _ => None
  }

  /** `Appearance.input_type(key)`. */
  function AppearanceInputType(key: string): Option<Descriptor>
  {
    match key
    case "color" => Some(Single(Prim(TString)))
    case "visible" => Some(Single(Prim(TBoolean)))
    case "daughters_invisible" => Some(Single(Prim(TBoolean)))
    case "line_style" => Some(Single(Prim(TString)))
    case "line_width" => Some(Single(Prim(TNumber)))
    case "force_solid" => Some(Single(Prim(TBoolean)))
    case "force_wireframe" => Some(Single(Prim(TBoolean)))
    case _ => None
  }

  /** `VoxelizedPhantom.input_type(key)`. */
  function VoxelizedPhantomInputType(key: string): Option<Descriptor>
  {
    match key
    case "name" => Some(Single(Prim(TString)))
    case "insert" => Some(Single(Prim(TString)))
    case "image" => Some(Single(Prim(TString)))
    case "material_database" => Some(Single(Prim(TString)))
    case "range_to_material_file" => Some(Single(Prim(TString)))
    case "hu_to_material_file" => Some(Single(Prim(TString)))
    case "attach" => Some(Single(Prim(TString)))
    case "skip_equal_materials" => Some(Single(Prim(TBoolean)))
    case "material_table" => Some(Single(Prim(TString)))
    case "density_table" => Some(Single(Prim(TString)))
    case "density_tolerance" => Some(Single(Cls(Value)))
    case "output_material_database_filename" => Some(Single(Prim(TString)))
    case "output_hu_material_filename" => Some(Single(Prim(TString)))
    case "fictitious_energy" => Some(Single(Cls(Value)))
    case "gamma_discard_energy" => Some(Single(Cls(Value)))
    case _ => None
  }

  /** `Vec3.input_type(key)`. */
  function Vec3InputType(key: string): Option<Descriptor>
  {
    match key
    case "value" => Some(ArrayOf([Prim(TNumber), Prim(TNumber), Prim(TNumber)]))
    case "unit" => Some(Single(Prim(TString)))
    case _ => None
  }

  /** `Value.input_type(key)`. */
  function ValueInputType(key: string): Option<Descriptor>
  {
    match key
    case "num" => Some(Single(Prim(TNumber)))
    case "unit" => Some(Single(Prim(TString)))
    case _ => None
  }

  /** `Physics.input_type(key)`. */
  function PhysicsInputType(key: string): Option<Descriptor>
  {
    match key
    case "physics_list" => Some(Single(Prim(TString)))
    case "cut_in_world" => Some(Single(Cls(CutInRegion)))
    case "cut_in_patient" => Some(Single(Cls(CutInRegion)))
    case "activate_step_limiter" => Some(Single(Prim(TString)))
    case "process" => Some(ArrayOf([Cls(Process)]))
    case "mag_field" => Some(Single(Cls(Vec3)))
    case _ => None
  }

  /** `CutInRegion.input_type(key)`. */
  function CutInRegionInputType(key: string): Option<Descriptor>
  {
    match key
    case "gamma" => Some(Single(Cls(Value)))
    case "electron" => Some(Single(Cls(Value)))
    case "positron" => Some(Single(Cls(Value)))
    case "proton" => Some(Single(Cls(Value)))
    case "max_step" => Some(Single(Cls(Value)))
    case _ => None
  }

  /** `Process.input_type(key)`. */
  function ProcessInputType(key: string): Option<Descriptor>
  {
    match key
    case "add" => Some(Single(Prim(TBoolean)))
    case "process_name" => Some(Single(Prim(TString)))
    case "particle" => Some(Single(Prim(TString)))
    case "model" => Some(Single(Cls(Model)))
    case _ => None
  }

  /** `Model.input_type(key)`. */
  function ModelInputType(key: string): Option<Descriptor>
  {
    match key
    case "set" => Some(Single(Prim(TBoolean)))
    case "model_name" => Some(Single(Prim(TString)))
    case "particle" => Some(Single(Prim(TString)))
    case "energy_range" => Some(Single(Prim(TBoolean)))
    case "e_max" => Some(Single(Cls(SetE)))
    case "e_min" => Some(Single(Cls(SetE)))
    case _ => None
  }

  /** `SetE.input_type(key)`. */
  function SetEInputType(key: string): Option<Descriptor>
  {
    match key
    case "value" => Some(Single(Cls(Value)))
    case "particle" => Some(Single(Prim(TString)))
    case "option" => Some(Single(Prim(TString)))
    case _ => None
  }

  /** `Flat.input_type(key)`. */
  function FlatInputType(key: string): Option<Descriptor>
  {
    match key
    case "min" => Some(Single(Cls(Value)))
    case "max" => Some(Single(Cls(Value)))
    case "amplitude" => Some(Single(Cls(Value)))
    case _ => None
  }

  /** `Gaussian.input_type(key)`. */
  function GaussianInputType(key: string): Option<Descriptor>
  {
    match key
    case "mean" => Some(Single(Cls(Value)))
    case "sigma" => Some(Single(Cls(Value)))
    case "amplitude" => Some(Single(Cls(Value)))
    case _ => None
  }

  /** `Exponential.input_type(key)`. */
  function ExponentialInputType(key: string): Option<Descriptor>
  {
    match key
    case "lambda" => Some(Single(Prim(TNumber)))
    case "amplitude" => Some(Single(Cls(Value)))
    case _ => None
  }

  /** `Manual.input_type(key)`. */
  function ManualInputType(key: string): Option<Descriptor>
  {
    match key
    case "unit_x" => Some(Single(Prim(TString)))
    case "unit_y" => Some(Single(Prim(TString)))
    case "insert_point" => Some(ArrayOf([Prim(TNumber), Prim(TNumber)]))
    case "add_point" => Some(Single(Prim(TNumber)))
    case "auto_x_start" => Some(Single(Prim(TNumber)))
    case _ => None
  }

  /** `File.input_type(key)`. */
  function FileInputType(key: string): Option<Descriptor>
  {
    match key
    case "unit_x" => Some(Single(Prim(TString)))
    case "unit_y" => Some(Single(Prim(TString)))
    case "auto_x" => Some(Single(Prim(TBoolean)))
    case "auto_x_start" => Some(Single(Cls(Value)))
    case "file_name" => Some(Single(Prim(TString)))
    case "column_x" => Some(Single(Prim(TNumber)))
    case "column_y" => Some(Single(Prim(TNumber)))
    case _ => None
  }

  /** `Digitizer.input_type(key)`. */
  function DigitizerInputType(key: string): Option<Descriptor>
  {
    match key
    case "adder" => Some(Single(Cls(Adder)))
    case "readout" => Some(Single(Cls(Readout)))
    case "blurring" => Some(Single(Cls(Blurring)))
    case "calibration" => Some(Single(Cls(Calibration)))
    case "crosstalk" => Some(Single(Cls(Crosstalk)))
    case "thresholder" => Some(Single(Cls(Thresholder)))
    case "upholder" => Some(Single(Cls(Upholder)))
    case "window" => Some(ArrayOf([Cls(Window)]))
    case "sigmoidal_thresholder" => Some(Single(Cls(SigmoidalThresholder)))
    case "time_resolution" => Some(Single(Cls(TimeResolution)))
    case "noise" => Some(Single(Cls(Noise)))
    case "local_efficiency" => Some(Single(Cls(LocalEfficiency)))
    case "buffer" => Some(Single(Cls(Buffer)))
    case "pileup" => Some(Single(Cls(Pileup)))
    case "deadtime" => Some(Single(Cls(DeadTime)))
    case "coincidences" => Some(Single(Cls(Coincidences)))
    case "coincidence_sorter" => Some(Single(Cls(CoincidenceSorter)))
    case _ => None
  }

  /** `Adder.input_type(key)`. */
  function AdderInputType(key: string): Option<Descriptor>
  {
    match key
    case "insert" => Some(Single(Prim(TBoolean)))
    case "adder_compton" => Some(Single(Prim(TBoolean)))
    case _ => None
  }

  /** `Readout.input_type(key)`. */
  function ReadoutInputType(key: string): Option<Descriptor>
  {
    match key
    case "insert" => Some(Single(Prim(TBoolean)))
    case "policy" => Some(Single(Prim(TString)))
    case "depth" => Some(Single(Prim(TNumber)))
    case _ => None
  }

  /** `Blurring.input_type(key)`. */
  function BlurringInputType(key: string): Option<Descriptor>
  {
    match key
    case "insert" => Some(Single(Prim(TBoolean)))
    case "law" => Some(Union("BlurringLaw", [Some(Cls(InverseSquareLaw)), Some(Cls(LinearLaw))]))
    case "crystal_blurring" => Some(Single(Cls(CrystalBlurring)))
    case "local_blurring" => Some(ArrayOf([Cls(LocalBlurring)]))
    case "transfer_efficiency" => Some(ArrayOf([Cls(TransferEfficiency)]))
    case "light_yield" => Some(ArrayOf([Cls(LightYield)]))
    case "intrinsic_resolution_blurring" => Some(ArrayOf([Cls(IntrinsicResolutionBlurring)]))
    case "quantum_efficiency" => Some(ArrayOf([Cls(QuantumEfficiency)]))
    case "spblurring" => Some(Single(Cls(Spblurring)))
    case _ => None
  }

  /** `InverseSquareLaw.input_type(key)`. */
  function InverseSquareLawInputType(key: string): Option<Descriptor>
  {
    match key
    case "resolution" => Some(Single(Prim(TNumber)))
    case "energy_of_reference" => Some(Single(Cls(Value)))
    case _ => None
  }

  /** `LinearLaw.input_type(key)`. */
  function LinearLawInputType(key: string): Option<Descriptor>
  {
    match key
    case "resolution" => Some(Single(Prim(TNumber)))
    case "energy_of_reference" => Some(Single(Cls(Value)))
    case "slope" => Some(Single(Cls(Value)))
    case _ => None
  }

  /** `CrystalBlurring.input_type(key)`. */
  function CrystalBlurringInputType(key: string): Option<Descriptor>
  {
    match key
    case "insert" => Some(Single(Prim(TBoolean)))
    case "crystal_resolution_min" => Some(Single(Prim(TNumber)))
    case "crystal_resolution_max" => Some(Single(Prim(TNumber)))
    case "crystal_qe" => Some(Single(Prim(TNumber)))
    case "crystal_energy_of_reference" => Some(Single(Cls(Value)))
    case _ => None
  }

  /** `LocalBlurring.input_type(key)`. */
  function LocalBlurringInputType(key: string): Option<Descriptor>
  {
    match key
    case "insert" => Some(Single(Prim(TBoolean)))
    case "volume" => Some(Single(Prim(TString)))
    case "resolution" => Some(Single(Prim(TNumber)))
    case "energy_of_reference" => Some(Single(Cls(Value)))
    case _ => None
  }

  /** `TransferEfficiency.input_type(key)`. */
  function TransferEfficiencyInputType(key: string): Option<Descriptor>
  {
    match key
    case "insert" => Some(Single(Prim(TBoolean)))
    case "volume" => Some(Single(Prim(TString)))
    case "tecoef" => Some(Single(Prim(TNumber)))
    case _ => None
  }

  /** `LightYield.input_type(key)`. */
  function LightYieldInputType(key: string): Option<Descriptor>
  {
    match key
    case "insert" => Some(Single(Prim(TBoolean)))
    case "volume" => Some(Single(Prim(TString)))
    case "light_output" => Some(Single(Prim(TNumber)))
    case _ => None
  }

  /** `IntrinsicResolutionBlurring.input_type(key)`. */
  function IntrinsicResolutionBlurringInputType(key: string): Option<Descriptor>
  {
    match key
    case "insert" => Some(Single(Prim(TBoolean)))
    case "volume" => Some(Single(Prim(TString)))
    case "intrinsic_resolution" => Some(Single(Prim(TNumber)))
    case "energy_of_reference" => Some(Single(Cls(Value)))
    case _ => None
  }

  /** `QuantumEfficiency.input_type(key)`. */
  function QuantumEfficiencyInputType(key: string): Option<Descriptor>
  {
    match key
    case "insert" => Some(Single(Prim(TBoolean)))
    case "volume" => Some(Single(Prim(TString)))
    case "unique_qe" => Some(Union("number | string[]", [Some(Prim(TNumber)), Some(Prim(TString))]))
    case _ => None
  }

  /** `Spblurring.input_type(key)`. */
  function SpblurringInputType(key: string): Option<Descriptor>
  {
    match key
    case "insert" => Some(Single(Prim(TBoolean)))
    case "spresolution" => Some(Single(Cls(Value)))
    case "verbose" => Some(Single(Prim(TNumber)))
    case _ => None
  }

  /** `Calibration.input_type(key)`. */
  function CalibrationInputType(key: string): Option<Descriptor>
  {
    match key
    case "insert" => Some(Single(Prim(TBoolean)))
    case "value" => Some(Single(Prim(TNumber)))
    case _ => None
  }

  /** `Crosstalk.input_type(key)`. */
  function CrosstalkInputType(key: string): Option<Descriptor>
  {
    match key
    case "insert" => Some(Single(Prim(TBoolean)))
    case "crosstalk_volume" => Some(Single(Prim(TString)))
    case "edges_fraction" => Some(Single(Prim(TNumber)))
    case "corners_fraction" => Some(Single(Prim(TNumber)))
    case _ => None
  }

  /** `Thresholder.input_type(key)`. */
  function ThresholderInputType(key: string): Option<Descriptor>
  {
    match key
    case "insert" => Some(Single(Prim(TBoolean)))
    case "value" => Some(Single(Cls(Value)))
    case _ => None
  }

  /** `Upholder.input_type(key)`. */
  function UpholderInputType(key: string): Option<Descriptor>
  {
    match key
    case "insert" => Some(Single(Prim(TBoolean)))
    case "value" => Some(Single(Cls(Value)))
    case _ => None
  }

  /** `Window.input_type(key)`. */
  function WindowInputType(key: string): Option<Descriptor>
  {
    match key
    case "insert" => Some(Single(Prim(TBoolean)))
    case "input_name" => Some(Single(Prim(TString)))
    case "thresholder" => Some(Single(Cls(Thresholder)))
    case "uphold" => Some(Single(Cls(Upholder)))
    case _ => None
  }

  /** `SigmoidalThresholder.input_type(key)`. */
  function SigmoidalThresholderInputType(key: string): Option<Descriptor>
  {
    match key
    case "insert" => Some(Single(Prim(TBoolean)))
    case "threshold" => Some(Single(Cls(Value)))
    case "threshold_alpha" => Some(Single(Prim(TNumber)))
    case "threshold_percent" => Some(Single(Prim(TNumber)))
    case _ => None
  }

  /** `TimeResolution.input_type(key)`. */
  function TimeResolutionInputType(key: string): Option<Descriptor>
  {
    match key
    case "insert" => Some(Single(Prim(TBoolean)))
    case "value" => Some(Single(Cls(Value)))
    case _ => None
  }

  /** `Noise.input_type(key)`. */
  function NoiseInputType(key: string): Option<Descriptor>
  {
    match key
    case "insert" => Some(Single(Prim(TBoolean)))
    case "deltaT_distribution" => Some(Union("Distribution", [Some(Cls(Flat)), Some(Cls(Gaussian)),
        Some(Cls(Exponential)), Some(Cls(Manual)), Some(Cls(File))]))
    case "energy_distribution" => Some(Union("Distribution", [Some(Cls(Flat)), Some(Cls(Gaussian)),
        Some(Cls(Exponential)), Some(Cls(Manual)), Some(Cls(File))]))
    case _ => None
  }

  /** `LocalEfficiency.input_type(key)`. */
  function LocalEfficiencyInputType(key: string): Option<Descriptor>
  {
    match key
    case "insert" => Some(Single(Prim(TBoolean)))
    case "Level1" => Some(Union("Distribution", [None, Some(Cls(Flat)), Some(Cls(Gaussian)),
        Some(Cls(Exponential)), Some(Cls(Manual)), Some(Cls(File))]))
    case "Level2" => Some(Union("Distribution", [None, Some(Cls(Flat)), Some(Cls(Gaussian)),
        Some(Cls(Exponential)), Some(Cls(Manual)), Some(Cls(File))]))
    case _ => None
  }

  /** `Buffer.input_type(key)`. */
  function BufferInputType(key: string): Option<Descriptor>
  {
    match key
    case "insert" => Some(Single(Prim(TBoolean)))
    case "buffer_size" => Some(Single(Cls(Value)))
    case "read_frequency" => Some(Single(Cls(Value)))
    case "mode" => Some(Single(Prim(TNumber)))
    case _ => None
  }

  /** `Pileup.input_type(key)`. */
  function PileupInputType(key: string): Option<Descriptor>
  {
    match key
    case "insert" => Some(Single(Prim(TBoolean)))
    case "depth" => Some(Single(Prim(TNumber)))
    case "value" => Some(Single(Cls(Value)))
    case _ => None
  }

  /** `DeadTime.input_type(key)`. */
  function DeadTimeInputType(key: string): Option<Descriptor>
  {
    match key
    case "insert" => Some(Single(Prim(TBoolean)))
    case "value" => Some(Single(Cls(Value)))
    case "mode" => Some(Single(Prim(TString)))
    case "dt_volume" => Some(Single(Prim(TString)))
    case "buffer_size" => Some(Single(Cls(Value)))
    case "buffer_mode" => Some(Single(Prim(TNumber)))
    case _ => None
  }

  /** `Coincidences.input_type(key)`. */
  function CoincidencesInputType(key: string): Option<Descriptor>
  {
    match key
    case "window" => Some(Single(Cls(Value)))
    case "min_sector_difference" => Some(Single(Prim(TNumber)))
    case "offset" => Some(Single(Cls(Value)))
    case "depth" => Some(Single(Prim(TNumber)))
    case "all_pulse_open_coinc_gate" => Some(Single(Prim(TBoolean)))
    case "multiple_policy" => Some(Single(Prim(TString)))
    case _ => None
  }

  /** `CoincidenceSorter.input_type(key)`. */
  function CoincidenceSorterInputType(key: string): Option<Descriptor>
  {
    match key
    case "insert" => Some(Single(Prim(TBoolean)))
    case "name" => Some(Single(Prim(TString)))
    case "input_name" => Some(Single(Prim(TString)))
    case "window" => Some(Single(Cls(Value)))
    case _ => None
  }

  /** `ChooseSource.input_type(key)`. */
  function ChooseSourceInputType(key: string): Option<Descriptor>
  {
    match key
    case "choose_source" => Some(Union("Source | VoxelizedSource", [Some(Cls(Source)),
        Some(Cls(VoxelizedSource))]))
    case _ => None
  }

  /** `Source.input_type(key)`. */
  function SourceInputType(key: string): Option<Descriptor>
  {
    match key
    case "name" => Some(Single(Prim(TString)))
    case "activity" => Some(Single(Cls(Value)))
    case "type" => Some(Single(Prim(TString)))
    case "centre" => Some(Single(Cls(Vec3)))
    case "particle" => Some(Single(Prim(TString)))
    case "energytype" => Some(Single(Prim(TString)))
    case "monoenergy" => Some(Single(Cls(Value)))
    case "gps_type" => Some(Single(Prim(TString)))
    case "shape" => Some(Single(Prim(TString)))
    case "radius" => Some(Single(Cls(Value)))
    case "halfz" => Some(Single(Cls(Value)))
    case "angtype" => Some(Single(Prim(TString)))
    case "mintheta" => Some(Single(Cls(Value)))
    case "maxtheta" => Some(Single(Cls(Value)))
    case "minphi" => Some(Single(Cls(Value)))
    case "maxphi" => Some(Single(Cls(Value)))
    case _ => None
  }

  /** `VoxelizedSource.input_type(key)`. */
  function VoxelizedSourceInputType(key: string): Option<Descriptor>
  {
    match key
    case "name" => Some(Single(Prim(TString)))
    case "insert_reader" => Some(Single(Prim(TString)))
    case "insert_translator" => Some(Union("Translator", [Some(Cls(LinearTranslator)),
        Some(Cls(RangeTranslator))]))
    case "read_file" => Some(Single(Prim(TString)))
    case "verbose" => Some(Single(Prim(TBoolean)))
    case "position" => Some(Single(Cls(Vec3)))
    case "dump" => Some(Single(Prim(TBoolean)))
    case "type" => Some(Single(Prim(TString)))
    case "particle" => Some(Single(Prim(TString)))
    case "energy_type" => Some(Single(Prim(TString)))
    case "monoenergy" => Some(Single(Cls(Value)))
    case "angtype" => Some(Single(Prim(TString)))
    case "mintheta" => Some(Single(Cls(Value)))
    case "maxtheta" => Some(Single(Cls(Value)))
    case "minphi" => Some(Single(Cls(Value)))
    case "maxphi" => Some(Single(Cls(Value)))
    case "confine" => Some(Single(Prim(TString)))
    case "forced_unstable_flag" => Some(Single(Prim(TBoolean)))
    case "forced_half_life" => Some(Single(Cls(Value)))
    case _ => None
  }

  /** `LinearTranslator.input_type(key)`. */
  function LinearTranslatorInputType(key: string): Option<Descriptor>
  {
    match key
    case "insert" => Some(Single(Prim(TBoolean)))
    case "scale" => Some(Single(Prim(TBoolean)))
    case _ => None
  }

  /** `RangeTranslator.input_type(key)`. */
  function RangeTranslatorInputType(key: string): Option<Descriptor>
  {
    match key
    case "insert" => Some(Single(Prim(TBoolean)))
    case "read_table" => Some(Single(Prim(TString)))
    case "describe" => Some(Single(Prim(TBoolean)))
    case _ => None
  }

  /** `DataOutput.input_type(key)`. */
  function DataOutputInputType(key: string): Option<Descriptor>
  {
    match key
    case "ascii" => Some(Single(Cls(Ascii)))
    case "root" => Some(Single(Cls(Root)))
    case "interfile" => Some(Single(Cls(Interfile)))
    case "sinogram" => Some(Single(Cls(Sinogram)))
    case "sinoaccel" => Some(Single(Cls(Sinogram)))
    case "ecat7" => Some(Single(Cls(Ecat7)))
    case "lmf" => Some(Single(Cls(Lmf)))
    case "imageCT" => Some(Single(Cls(ImageCT)))
    case _ => None
  }

  /** `Ascii.input_type(key)`. */
  function AsciiInputType(key: string): Option<Descriptor>
  {
    match key
    case "enable" => Some(Single(Prim(TBoolean)))
    case "file_name" => Some(Single(Prim(TString)))
    case "out_file_hits_flag" => Some(Single(Prim(TBoolean)))
    case "out_file_singles_flag" => Some(Single(Prim(TBoolean)))
    case "out_file_coincidences_flag" => Some(Single(Prim(TBoolean)))
    case "coincidence_mask" => Some(ArrayOf([Prim(TBoolean), Prim(TBoolean), Prim(TBoolean),
        Prim(TBoolean), Prim(TBoolean), Prim(TBoolean)]))
    case "single_mask" => Some(ArrayOf([Prim(TBoolean), Prim(TBoolean), Prim(TBoolean),
        Prim(TBoolean)]))
    case "out_file_size_limit" => Some(Single(Prim(TNumber)))
    case _ => None
  }

  /** `Root.input_type(key)`. */
  function RootInputType(key: string): Option<Descriptor>
  {
    match key
    case "enable" => Some(Single(Prim(TBoolean)))
    case "file_name" => Some(Single(Prim(TString)))
    case "root_hit_flag" => Some(Single(Prim(TBoolean)))
    case "root_singles_flag" => Some(Single(Prim(TBoolean)))
    case "root_coincidences_flag" => Some(Single(Prim(TBoolean)))
    case "root_ntuple_flag" => Some(Single(Prim(TBoolean)))
    case "out_file_singles_adder_flag" => Some(Single(Prim(TBoolean)))
    case "out_file_singles_readout_flag" => Some(Single(Prim(TBoolean)))
    case "out_file_singles_spblurring_flag" => Some(Single(Prim(TBoolean)))
    case "out_file_singles_blurring_flag" => Some(Single(Prim(TBoolean)))
    case "out_file_singles_thresholder_flag" => Some(Single(Prim(TBoolean)))
    case "out_file_singles_upholder_flag" => Some(Single(Prim(TBoolean)))
    case _ => None
  }

  /** `Interfile.input_type(key)`. */
  function InterfileInputType(key: string): Option<Descriptor>
  {
    match key
    case "enable" => Some(Single(Prim(TBoolean)))
    case "file_name" => Some(Single(Prim(TString)))
    case "projection_plane" => Some(Single(Prim(TString)))
    case "pixel_size" => Some(ArrayOf([Cls(Value), Cls(Value)]))
    case "pixel_number" => Some(ArrayOf([Prim(TNumber), Prim(TNumber)]))
    case _ => None
  }

  /** `Sinogram.input_type(key)`. */
  function SinogramInputType(key: string): Option<Descriptor>
  {
    match key
    case "enable" => Some(Single(Prim(TBoolean)))
    case "file_name" => Some(Single(Prim(TString)))
    case "radial_bins" => Some(Single(Prim(TNumber)))
    case "trues_only" => Some(Single(Prim(TBoolean)))
    case "raw_output_enable" => Some(Single(Prim(TBoolean)))
    case _ => None
  }

  /** `Ecat7.input_type(key)`. */
  function Ecat7InputType(key: string): Option<Descriptor>
  {
    match key
    case "enable" => Some(Single(Prim(TBoolean)))
    case "file_name" => Some(Single(Prim(TString)))
    case "maxringdiff" => Some(Single(Prim(TNumber)))
    case "span" => Some(Single(Prim(TNumber)))
    case "mashing" => Some(Single(Prim(TNumber)))
    case "system" => Some(Single(Prim(TNumber)))
    case _ => None
  }

  /** `Lmf.input_type(key)`. */
  function LmfInputType(key: string): Option<Descriptor>
  {
    match key
    case "enable" => Some(Single(Prim(TBoolean)))
    case "file_name" => Some(Single(Prim(TString)))
    case "detector_id_bool" => Some(Single(Prim(TBoolean)))
    case "energy_bool" => Some(Single(Prim(TBoolean)))
    case "gantry_axial_pos_bool" => Some(Single(Prim(TBoolean)))
    case "gantry_angular_pos_bool" => Some(Single(Prim(TBoolean)))
    case "source_pos_bool" => Some(Single(Prim(TBoolean)))
    case "neighbour_bool" => Some(Single(Prim(TBoolean)))
    case "neighbourhood_order" => Some(Single(Prim(TBoolean)))
    case "coincidence_bool" => Some(Single(Prim(TBoolean)))
    case "gate_digi_bool" => Some(Single(Prim(TBoolean)))
    case "compton_bool" => Some(Single(Prim(TBoolean)))
    case "compton_detector_bool" => Some(Single(Prim(TBoolean)))
    case "source_id_bool" => Some(Single(Prim(TBoolean)))
    case "source_xyzpos_bool" => Some(Single(Prim(TBoolean)))
    case "global_xyzpos_bool" => Some(Single(Prim(TBoolean)))
    case "event_id_bool" => Some(Single(Prim(TBoolean)))
    case "run_id_bool" => Some(Single(Prim(TBoolean)))
    case _ => None
  }

  /** `ImageCT.input_type(key)`. */
  function ImageCTInputType(key: string): Option<Descriptor>
  {
    match key
    case "enable" => Some(Single(Prim(TBoolean)))
    case "file_name" => Some(Single(Prim(TString)))
    case "num_pixel" => Some(ArrayOf([Prim(TNumber), Prim(TNumber)]))
    case "vrt_factor" => Some(Single(Prim(TNumber)))
    case "start_seed" => Some(Single(Prim(TNumber)))
    case _ => None
  }

  /** `Acquisition.input_type(key)`. */
  function AcquisitionInputType(key: string): Option<Descriptor>
  {
    match key
    case "total_number_of_primaries" => Some(Single(Prim(TNumber)))
    case "number_of_primaries_perrun" => Some(Single(Prim(TNumber)))
    case "time_slice" => Some(Union("Value[] | string", [Some(Cls(Value)), Some(Prim(TString))]))
    case "time_start" => Some(Single(Cls(Value)))
    case "time_stop" => Some(Single(Cls(Value)))
    case "engine_seed" => Some(Union("number | string", [Some(Prim(TNumber)), Some(Prim(TString))]))
    case "engine_name" => Some(Single(Prim(TString)))
    case "verbose" => Some(Single(Prim(TNumber)))
    case _ => None
  }

  /** `MaterialDatabase.input_type(key)`. */
  function MaterialDatabaseInputType(key: string): Option<Descriptor>
  {
    match key
    case "path" => Some(Single(Prim(TString)))
    case _ => None
  }

  /** `c.input_type(key)` exactly as the source writes it; None is the `undefined` that a switch
      without a default returns for a key it does not list. */
  function InputTypeTable(c: ClassName): string -> Option<Descriptor>
  {
    match c
    case Geometry => GeometryInputType
    case Scanner => ScannerInputType
    case CTscanner => CTscannerInputType
    case CylindricalPET => CylindricalPETInputType
    case CPET => CPETInputType
    case ECAT => ECATInputType
    case ECATAccel => ECATAccelInputType
    case OPET => OPETInputType
    case SPECThead => SPECTheadInputType
    case Volume => VolumeInputType
    case Box => BoxInputType
    case Sphere => SphereInputType
    case Cylinder => CylinderInputType
    case Cone => ConeInputType
    case Ellipsoid => EllipsoidInputType
    case EllipticalTube => EllipticalTubeInputType
    case Tessellated => TessellatedInputType
    case TetMeshBox => TetMeshBoxInputType
    case TRPD => TRPDInputType
    case Hexagone => HexagoneInputType
    case Wedge => WedgeInputType
    case Appearance => AppearanceInputType
    case VoxelizedPhantom => VoxelizedPhantomInputType
    case Vec3 => Vec3InputType
    case Value => ValueInputType
    case Physics => PhysicsInputType
    case CutInRegion => CutInRegionInputType
    case Process => ProcessInputType
    case Model => ModelInputType
    case SetE => SetEInputType
    case Flat => FlatInputType
    case Gaussian => GaussianInputType
    case Exponential => ExponentialInputType
    case Manual => ManualInputType
    case File => FileInputType
    case Digitizer => DigitizerInputType
    case Adder => AdderInputType
    case Readout => ReadoutInputType
    case Blurring => BlurringInputType
    case InverseSquareLaw => InverseSquareLawInputType
    case LinearLaw => LinearLawInputType
    case CrystalBlurring => CrystalBlurringInputType
    case LocalBlurring => LocalBlurringInputType
    case TransferEfficiency => TransferEfficiencyInputType
    case LightYield => LightYieldInputType
    case IntrinsicResolutionBlurring => IntrinsicResolutionBlurringInputType
    case QuantumEfficiency => QuantumEfficiencyInputType
    case Spblurring => SpblurringInputType
    case Calibration => CalibrationInputType
    case Crosstalk => CrosstalkInputType
    case Thresholder => ThresholderInputType
    case Upholder => UpholderInputType
    case Window => WindowInputType
    case SigmoidalThresholder => SigmoidalThresholderInputType
    case TimeResolution => TimeResolutionInputType
    case Noise => NoiseInputType
    case LocalEfficiency => LocalEfficiencyInputType
    case Buffer => BufferInputType
    case Pileup => PileupInputType
    case DeadTime => DeadTimeInputType
    case Coincidences => CoincidencesInputType
    case CoincidenceSorter => CoincidenceSorterInputType
    case ChooseSource => ChooseSourceInputType
    case Source => SourceInputType
    case VoxelizedSource => VoxelizedSourceInputType
    case LinearTranslator => LinearTranslatorInputType
    case RangeTranslator => RangeTranslatorInputType
    case DataOutput => DataOutputInputType
    case Ascii => AsciiInputType
    case Root => RootInputType
    case Interfile => InterfileInputType
    case Sinogram => SinogramInputType
    case Ecat7 => Ecat7InputType
    case Lmf => LmfInputType
    case ImageCT => ImageCTInputType
    case Acquisition => AcquisitionInputType
    case MaterialDatabase => MaterialDatabaseInputType
  }

  function InputTypeAsWritten(c: ClassName, key: string): Option<Descriptor>
  {
    InputTypeTable(c)(key)
  }

  /** The list fields that the source describes as a single node although their constructors store
      a one-element list (`this.cluster = [new Volume()]`): CTscanner.cluster and CTscanner.pixel
      (SAM.ts:87-88, 93-94, 101-102) and the `layer` of CylindricalPET, CPET and OPET
      (SAM.ts:120, 130, 148, 158, 214, 224). */
  predicate IsMisdescribedList(c: ClassName, key: string)
  {
    || (c == CTscanner && (key == "cluster" || key == "pixel"))
    || ((c == CylindricalPET || c == CPET || c == OPET) && key == "layer")
  }

  /** Descriptor `d`, looked up for field `key` of class `c`, with the misdescribed list fields
      given the one-class list descriptor `['Volume']`, the form every other list-of-node field
      already has. */
  function Corrected(c: ClassName, key: string, d: Option<Descriptor>): Option<Descriptor>
  {
    if IsMisdescribedList(c, key) then Some(ArrayOf([Cls(Volume)])) else d
  }

  /** The descriptor lookup used by the rest of the model: the source's table, corrected. */
  function InputType(c: ClassName, key: string): (r: Option<Descriptor>)
    ensures !IsMisdescribedList(c, key) ==> r == InputTypeAsWritten(c, key)
    ensures IsMisdescribedList(c, key) ==>
      InputTypeAsWritten(c, key) == Some(Single(Cls(Volume))) && r == Some(ArrayOf([Cls(Volume)]))
  {
    Corrected(c, key, InputTypeAsWritten(c, key))
  }

  /** The `readonly insert: boolean` fields of Adder and Readout (SAM.ts:1126, 1143), which their
      constructors set to `true` rather than `false`. */
  predicate IsReadonly(c: ClassName, key: string)
  {
    (c == Adder || c == Readout) && key == "insert"
  }

  /** `key` names a tagged-union field of class `c`. */
  predicate IsUnionSlot(c: ClassName, key: string)
  {
    InputType(c, key).Some? && InputType(c, key).value.Union?
  }

  /** `Geometry.input_type(key)`, read through the dispatch on the class. */
  lemma InputTypeOfGeometry(key: string)
    ensures InputType(Geometry, key) == Corrected(Geometry, key, GeometryInputType(key))
  {
  }

  /** `Scanner.input_type(key)`, read through the dispatch on the class. */
  lemma InputTypeOfScanner(key: string)
    ensures InputType(Scanner, key) == Corrected(Scanner, key, ScannerInputType(key))
  {
  }

  /** `CTscanner.input_type(key)`, read through the dispatch on the class. */
  lemma InputTypeOfCTscanner(key: string)
    ensures InputType(CTscanner, key) == Corrected(CTscanner, key, CTscannerInputType(key))
  {
  }

  /** `CylindricalPET.input_type(key)`, read through the dispatch on the class. */
  lemma InputTypeOfCylindricalPET(key: string)
    ensures InputType(CylindricalPET, key) == Corrected(CylindricalPET, key, CylindricalPETInputType(key))
  {
  }

  /** `CPET.input_type(key)`, read through the dispatch on the class. */
  lemma InputTypeOfCPET(key: string)
    ensures InputType(CPET, key) == Corrected(CPET, key, CPETInputType(key))
  {
  }

  /** `ECAT.input_type(key)`, read through the dispatch on the class. */
  lemma InputTypeOfECAT(key: string)
    ensures InputType(ECAT, key) == Corrected(ECAT, key, ECATInputType(key))
  {
  }

  /** `ECATAccel.input_type(key)`, read through the dispatch on the class. */
  lemma InputTypeOfECATAccel(key: string)
    ensures InputType(ECATAccel, key) == Corrected(ECATAccel, key, ECATAccelInputType(key))
  {
  }

  /** `OPET.input_type(key)`, read through the dispatch on the class. */
  lemma InputTypeOfOPET(key: string)
    ensures InputType(OPET, key) == Corrected(OPET, key, OPETInputType(key))
  {
  }

  /** `SPECThead.input_type(key)`, read through the dispatch on the class. */
  lemma InputTypeOfSPECThead(key: string)
    ensures InputType(SPECThead, key) == Corrected(SPECThead, key, SPECTheadInputType(key))
  {
  }

  /** `Volume.input_type(key)`, read through the dispatch on the class. */
  lemma InputTypeOfVolume(key: string)
    ensures InputType(Volume, key) == Corrected(Volume, key, VolumeInputType(key))
  {
  }

  /** `Box.input_type(key)`, read through the dispatch on the class. */
  lemma InputTypeOfBox(key: string)
    ensures InputType(Box, key) == Corrected(Box, key, BoxInputType(key))
  {
  }

  /** `Sphere.input_type(key)`, read through the dispatch on the class. */
  lemma InputTypeOfSphere(key: string)
    ensures InputType(Sphere, key) == Corrected(Sphere, key, SphereInputType(key))
  {
  }

  /** `Cylinder.input_type(key)`, read through the dispatch on the class. */
  lemma InputTypeOfCylinder(key: string)
    ensures InputType(Cylinder, key) == Corrected(Cylinder, key, CylinderInputType(key))
  {
  }

  /** `Cone.input_type(key)`, read through the dispatch on the class. */
  lemma InputTypeOfCone(key: string)
    ensures InputType(Cone, key) == Corrected(Cone, key, ConeInputType(key))
  {
  }

  /** `Ellipsoid.input_type(key)`, read through the dispatch on the class. */
  lemma InputTypeOfEllipsoid(key: string)
    ensures InputType(Ellipsoid, key) == Corrected(Ellipsoid, key, EllipsoidInputType(key))
  {
  }

  /** `EllipticalTube.input_type(key)`, read through the dispatch on the class. */
  lemma InputTypeOfEllipticalTube(key: string)
    ensures InputType(EllipticalTube, key) == Corrected(EllipticalTube, key, EllipticalTubeInputType(key))
  {
  }

  /** `Tessellated.input_type(key)`, read through the dispatch on the class. */
  lemma InputTypeOfTessellated(key: string)
    ensures InputType(Tessellated, key) == Corrected(Tessellated, key, TessellatedInputType(key))
  {
  }

  /** `TetMeshBox.input_type(key)`, read through the dispatch on the class. */
  lemma InputTypeOfTetMeshBox(key: string)
    ensures InputType(TetMeshBox, key) == Corrected(TetMeshBox, key, TetMeshBoxInputType(key))
  {
  }

  /** `TRPD.input_type(key)`, read through the dispatch on the class. */
  lemma InputTypeOfTRPD(key: string)
    ensures InputType(TRPD, key) == Corrected(TRPD, key, TRPDInputType(key))
  {
  }

  /** `Hexagone.input_type(key)`, read through the dispatch on the class. */
  lemma InputTypeOfHexagone(key: string)
    ensures InputType(Hexagone, key) == Corrected(Hexagone, key, HexagoneInputType(key))
  {
  }

  /** `Wedge.input_type(key)`, read through the dispatch on the class. */
  lemma InputTypeOfWedge(key: string)
    ensures InputType(Wedge, key) == Corrected(Wedge, key, WedgeInputType(key))
  {
  }

  /** `Appearance.input_type(key)`, read through the dispatch on the class. */
  lemma InputTypeOfAppearance(key: string)
    ensures InputType(Appearance, key) == Corrected(Appearance, key, AppearanceInputType(key))
  {
  }

  /** `VoxelizedPhantom.input_type(key)`, read through the dispatch on the class. */
  lemma InputTypeOfVoxelizedPhantom(key: string)
    ensures InputType(VoxelizedPhantom, key) == Corrected(VoxelizedPhantom, key, VoxelizedPhantomInputType(key))
  {
  }

  /** `Vec3.input_type(key)`, read through the dispatch on the class. */
  lemma InputTypeOfVec3(key: string)
    ensures InputType(Vec3, key) == Corrected(Vec3, key, Vec3InputType(key))
  {
  }

  /** `Value.input_type(key)`, read through the dispatch on the class. */
  lemma InputTypeOfValue(key: string)
    ensures InputType(Value, key) == Corrected(Value, key, ValueInputType(key))
  {
  }

  /** `Physics.input_type(key)`, read through the dispatch on the class. */
  lemma InputTypeOfPhysics(key: string)
    ensures InputType(Physics, key) == Corrected(Physics, key, PhysicsInputType(key))
  {
  }

  /** `CutInRegion.input_type(key)`, read through the dispatch on the class. */
  lemma InputTypeOfCutInRegion(key: string)
    ensures InputType(CutInRegion, key) == Corrected(CutInRegion, key, CutInRegionInputType(key))
  {
  }

  /** `Process.input_type(key)`, read through the dispatch on the class. */
  lemma InputTypeOfProcess(key: string)
    ensures InputType(Process, key) == Corrected(Process, key, ProcessInputType(key))
  {
  }

  /** `Model.input_type(key)`, read through the dispatch on the class. */
  lemma InputTypeOfModel(key: string)
    ensures InputType(Model, key) == Corrected(Model, key, ModelInputType(key))
  {
  }

  /** `SetE.input_type(key)`, read through the dispatch on the class. */
  lemma InputTypeOfSetE(key: string)
    ensures InputType(SetE, key) == Corrected(SetE, key, SetEInputType(key))
  {
  }

  /** `Flat.input_type(key)`, read through the dispatch on the class. */
  lemma InputTypeOfFlat(key: string)
    ensures InputType(Flat, key) == Corrected(Flat, key, FlatInputType(key))
  {
  }

  /** `Gaussian.input_type(key)`, read through the dispatch on the class. */
  lemma InputTypeOfGaussian(key: string)
    ensures InputType(Gaussian, key) == Corrected(Gaussian, key, GaussianInputType(key))
  {
  }

  /** `Exponential.input_type(key)`, read through the dispatch on the class. */
  lemma InputTypeOfExponential(key: string)
    ensures InputType(Exponential, key) == Corrected(Exponential, key, ExponentialInputType(key))
  {
  }

  /** `Manual.input_type(key)`, read through the dispatch on the class. */
  lemma InputTypeOfManual(key: string)
    ensures InputType(Manual, key) == Corrected(Manual, key, ManualInputType(key))
  {
  }

  /** `File.input_type(key)`, read through the dispatch on the class. */
  lemma InputTypeOfFile(key: string)
    ensures InputType(File, key) == Corrected(File, key, FileInputType(key))
  {
  }

  /** `Digitizer.input_type(key)`, read through the dispatch on the class. */
  lemma InputTypeOfDigitizer(key: string)
    ensures InputType(Digitizer, key) == Corrected(Digitizer, key, DigitizerInputType(key))
  {
  }

  /** `Adder.input_type(key)`, read through the dispatch on the class. */
  lemma InputTypeOfAdder(key: string)
    ensures InputType(Adder, key) == Corrected(Adder, key, AdderInputType(key))
  {
  }

  /** `Readout.input_type(key)`, read through the dispatch on the class. */
  lemma InputTypeOfReadout(key: string)
    ensures InputType(Readout, key) == Corrected(Readout, key, ReadoutInputType(key))
  {
  }

  /** `Blurring.input_type(key)`, read through the dispatch on the class. */
  lemma InputTypeOfBlurring(key: string)
    ensures InputType(Blurring, key) == Corrected(Blurring, key, BlurringInputType(key))
  {
  }

  /** `InverseSquareLaw.input_type(key)`, read through the dispatch on the class. */
  lemma InputTypeOfInverseSquareLaw(key: string)
    ensures InputType(InverseSquareLaw, key) == Corrected(InverseSquareLaw, key, InverseSquareLawInputType(key))
  {
  }

  /** `LinearLaw.input_type(key)`, read through the dispatch on the class. */
  lemma InputTypeOfLinearLaw(key: string)
    ensures InputType(LinearLaw, key) == Corrected(LinearLaw, key, LinearLawInputType(key))
  {
  }

  /** `CrystalBlurring.input_type(key)`, read through the dispatch on the class. */
  lemma InputTypeOfCrystalBlurring(key: string)
    ensures InputType(CrystalBlurring, key) == Corrected(CrystalBlurring, key, CrystalBlurringInputType(key))
  {
  }

  /** `LocalBlurring.input_type(key)`, read through the dispatch on the class. */
  lemma InputTypeOfLocalBlurring(key: string)
    ensures InputType(LocalBlurring, key) == Corrected(LocalBlurring, key, LocalBlurringInputType(key))
  {
  }

  /** `TransferEfficiency.input_type(key)`, read through the dispatch on the class. */
  lemma InputTypeOfTransferEfficiency(key: string)
    ensures InputType(TransferEfficiency, key) == Corrected(TransferEfficiency, key, TransferEfficiencyInputType(key))
  {
  }

  /** `LightYield.input_type(key)`, read through the dispatch on the class. */
  lemma InputTypeOfLightYield(key: string)
    ensures InputType(LightYield, key) == Corrected(LightYield, key, LightYieldInputType(key))
  {
  }

  /** `IntrinsicResolutionBlurring.input_type(key)`, read through the dispatch on the class. */
  lemma InputTypeOfIntrinsicResolutionBlurring(key: string)
    ensures InputType(IntrinsicResolutionBlurring, key) == Corrected(IntrinsicResolutionBlurring, key, IntrinsicResolutionBlurringInputType(key))
  {
  }

  /** `QuantumEfficiency.input_type(key)`, read through the dispatch on the class. */
  lemma InputTypeOfQuantumEfficiency(key: string)
    ensures InputType(QuantumEfficiency, key) == Corrected(QuantumEfficiency, key, QuantumEfficiencyInputType(key))
  {
  }

  /** `Spblurring.input_type(key)`, read through the dispatch on the class. */
  lemma InputTypeOfSpblurring(key: string)
    ensures InputType(Spblurring, key) == Corrected(Spblurring, key, SpblurringInputType(key))
  {
  }

  /** `Calibration.input_type(key)`, read through the dispatch on the class. */
  lemma InputTypeOfCalibration(key: string)
    ensures InputType(Calibration, key) == Corrected(Calibration, key, CalibrationInputType(key))
  {
  }

  /** `Crosstalk.input_type(key)`, read through the dispatch on the class. */
  lemma InputTypeOfCrosstalk(key: string)
    ensures InputType(Crosstalk, key) == Corrected(Crosstalk, key, CrosstalkInputType(key))
  {
  }

  /** `Thresholder.input_type(key)`, read through the dispatch on the class. */
  lemma InputTypeOfThresholder(key: string)
    ensures InputType(Thresholder, key) == Corrected(Thresholder, key, ThresholderInputType(key))
  {
  }

  /** `Upholder.input_type(key)`, read through the dispatch on the class. */
  lemma InputTypeOfUpholder(key: string)
    ensures InputType(Upholder, key) == Corrected(Upholder, key, UpholderInputType(key))
  {
  }

  /** `Window.input_type(key)`, read through the dispatch on the class. */
  lemma InputTypeOfWindow(key: string)
    ensures InputType(Window, key) == Corrected(Window, key, WindowInputType(key))
  {
  }

  /** `SigmoidalThresholder.input_type(key)`, read through the dispatch on the class. */
  lemma InputTypeOfSigmoidalThresholder(key: string)
    ensures InputType(SigmoidalThresholder, key) == Corrected(SigmoidalThresholder, key, SigmoidalThresholderInputType(key))
  {
  }

  /** `TimeResolution.input_type(key)`, read through the dispatch on the class. */
  lemma InputTypeOfTimeResolution(key: string)
    ensures InputType(TimeResolution, key) == Corrected(TimeResolution, key, TimeResolutionInputType(key))
  {
  }

  /** `Noise.input_type(key)`, read through the dispatch on the class. */
  lemma InputTypeOfNoise(key: string)
    ensures InputType(Noise, key) == Corrected(Noise, key, NoiseInputType(key))
  {
  }

  /** `LocalEfficiency.input_type(key)`, read through the dispatch on the class. */
  lemma InputTypeOfLocalEfficiency(key: string)
    ensures InputType(LocalEfficiency, key) == Corrected(LocalEfficiency, key, LocalEfficiencyInputType(key))
  {
  }

  /** `Buffer.input_type(key)`, read through the dispatch on the class. */
  lemma InputTypeOfBuffer(key: string)
    ensures InputType(Buffer, key) == Corrected(Buffer, key, BufferInputType(key))
  {
  }

  /** `Pileup.input_type(key)`, read through the dispatch on the class. */
  lemma InputTypeOfPileup(key: string)
    ensures InputType(Pileup, key) == Corrected(Pileup, key, PileupInputType(key))
  {
  }

  /** `DeadTime.input_type(key)`, read through the dispatch on the class. */
  lemma InputTypeOfDeadTime(key: string)
    ensures InputType(DeadTime, key) == Corrected(DeadTime, key, DeadTimeInputType(key))
  {
  }

  /** `Coincidences.input_type(key)`, read through the dispatch on the class. */
  lemma InputTypeOfCoincidences(key: string)
    ensures InputType(Coincidences, key) == Corrected(Coincidences, key, CoincidencesInputType(key))
  {
  }

  /** `CoincidenceSorter.input_type(key)`, read through the dispatch on the class. */
  lemma InputTypeOfCoincidenceSorter(key: string)
    ensures InputType(CoincidenceSorter, key) == Corrected(CoincidenceSorter, key, CoincidenceSorterInputType(key))
  {
  }

  /** `ChooseSource.input_type(key)`, read through the dispatch on the class. */
  lemma InputTypeOfChooseSource(key: string)
    ensures InputType(ChooseSource, key) == Corrected(ChooseSource, key, ChooseSourceInputType(key))
  {
  }

  /** `Source.input_type(key)`, read through the dispatch on the class. */
  lemma InputTypeOfSource(key: string)
    ensures InputType(Source, key) == Corrected(Source, key, SourceInputType(key))
  {
  }

  /** `VoxelizedSource.input_type(key)`, read through the dispatch on the class. */
  lemma InputTypeOfVoxelizedSource(key: string)
    ensures InputType(VoxelizedSource, key) == Corrected(VoxelizedSource, key, VoxelizedSourceInputType(key))
  {
  }

  /** `LinearTranslator.input_type(key)`, read through the dispatch on the class. */
  lemma InputTypeOfLinearTranslator(key: string)
    ensures InputType(LinearTranslator, key) == Corrected(LinearTranslator, key, LinearTranslatorInputType(key))
  {
  }

  /** `RangeTranslator.input_type(key)`, read through the dispatch on the class. */
  lemma InputTypeOfRangeTranslator(key: string)
    ensures InputType(RangeTranslator, key) == Corrected(RangeTranslator, key, RangeTranslatorInputType(key))
  {
  }

  /** `DataOutput.input_type(key)`, read through the dispatch on the class. */
  lemma InputTypeOfDataOutput(key: string)
    ensures InputType(DataOutput, key) == Corrected(DataOutput, key, DataOutputInputType(key))
  {
  }

  /** `Ascii.input_type(key)`, read through the dispatch on the class. */
  lemma InputTypeOfAscii(key: string)
    ensures InputType(Ascii, key) == Corrected(Ascii, key, AsciiInputType(key))
  {
  }

  /** `Root.input_type(key)`, read through the dispatch on the class. */
  lemma InputTypeOfRoot(key: string)
    ensures InputType(Root, key) == Corrected(Root, key, RootInputType(key))
  {
  }

  /** `Interfile.input_type(key)`, read through the dispatch on the class. */
  lemma InputTypeOfInterfile(key: string)
    ensures InputType(Interfile, key) == Corrected(Interfile, key, InterfileInputType(key))
  {
  }

  /** `Sinogram.input_type(key)`, read through the dispatch on the class. */
  lemma InputTypeOfSinogram(key: string)
    ensures InputType(Sinogram, key) == Corrected(Sinogram, key, SinogramInputType(key))
  {
  }

  /** `Ecat7.input_type(key)`, read through the dispatch on the class. */
  lemma InputTypeOfEcat7(key: string)
    ensures InputType(Ecat7, key) == Corrected(Ecat7, key, Ecat7InputType(key))
  {
  }

  /** `Lmf.input_type(key)`, read through the dispatch on the class. */
  lemma InputTypeOfLmf(key: string)
    ensures InputType(Lmf, key) == Corrected(Lmf, key, LmfInputType(key))
  {
  }

  /** `ImageCT.input_type(key)`, read through the dispatch on the class. */
  lemma InputTypeOfImageCT(key: string)
    ensures InputType(ImageCT, key) == Corrected(ImageCT, key, ImageCTInputType(key))
  {
  }

  /** `Acquisition.input_type(key)`, read through the dispatch on the class. */
  lemma InputTypeOfAcquisition(key: string)
    ensures InputType(Acquisition, key) == Corrected(Acquisition, key, AcquisitionInputType(key))
  {
  }

  /** `MaterialDatabase.input_type(key)`, read through the dispatch on the class. */
  lemma InputTypeOfMaterialDatabase(key: string)
    ensures InputType(MaterialDatabase, key) == Corrected(MaterialDatabase, key, MaterialDatabaseInputType(key))
  {
  }
}
