# SAM configuration tree, modelled in Dafny

The editor keeps a GATE simulation set-up as a tree of typed nodes: the classes of
`src/app/SAM.ts`. Every class has a constructor that fills its fields with defaults and an
`input_type(key)` switch that tells the form how to edit field `key`: a primitive (`'string'`,
`'number'`, `'boolean'`), a node of a named class, a list, or a tagged union
`{type: ..., subclass: [...]}` whose variants the user picks from. Nine classes that own union fields also have
`choose_subclass(key, subclass)`, which replaces that one field with a fresh default of the
variant picked. The variant picker `SelectSubclassComponent`
(`src/app/select-subclass/select-subclass.component.ts`) offers the variant names for a field
(`judgeClass`) and builds the item for the name the user picks (`chooseSubclass`).

The model follows that shape:

- `sam_types.dfy`: the class names, JavaScript values (`undefined` and `null` are distinct;
  numbers are opaque), and `Node`, a class with the node's class name and its field map.
- `sam_input_type.dfy`: every class's `input_type` switch as a table of descriptors, and the
  dispatch on the class.
- `sam_fits.dfy`: when a value fits a descriptor. In the initial state a union is `undefined`, a
  number `null`, a string `''`, a flag `false`, and a list holds exactly one node of the class it
  names. `DefaultNode` is what a constructor's result satisfies: a node that fits in this way,
  whose child nodes are themselves such defaults of their own classes, are not the node itself,
  and are each held by one field at one place. A constructor moreover ensures
  `fresh(NodeAndChildren(n))`: the node and every node its fields hold are new.
- `sam_defaults.dfy`: every constructor as a method `NewX` that builds its child nodes and
  returns a fresh node holding `XFields`, the field map the constructor writes. Lemmas show that
  the stored key set equals the keys `input_type` describes, that every stored value fits its
  descriptor, that no child node is held twice (`XUnshared`), and that every node stored is new
  (`XFresh`).
- `sam_union_slots.dfy`: which fields are tagged unions, class by class.
- `sam_choose.dfy`: every `choose_subclass` as a method on a node. It is proved against
  `SamChoice`, the choice the union descriptor calls for, and against the switches read as
  tables, slot by slot.
- `sam_choice_facts.dfy`: what the choices promise together. Only the field `key` changes, an
  unlisted name clears it, conformance to `input_type` is kept, and the primitive variants start
  empty.
- `select_subclass.dfy`: the picker as a class with the fields `name`, `item` and `subclass`,
  and lemmas relating its lists and items to `input_type` and `choose_subclass`.

Two descriptor readings are used. `InputTypeAsWritten` is the switch as the source has it.
`InputType` corrects the five list fields that the source misdescribes (see Findings). Every
other part of the model uses `InputType`.

## Model

| member | source | states |
|---|---|---|
| `SamInputType.InputType` | src/app/SAM.ts:12-2342 | the descriptor of every field of the 77 classes as `input_type` returns it, except the five misdescribed list fields (CTscanner `cluster`/`pixel`, the `layer` of CylindricalPET, CPET and OPET), where the source says `'Volume'` and the model uses the one-class list descriptor `['Volume']` |
| `SamFits.MisdescribedListRejectsDefault` | src/app/SAM.ts:85-104 | read as written, the descriptor of a misdescribed list field rejects the one-element list `[new Volume()]` its constructor stores; the corrected descriptor accepts it |
| `SamChoiceFacts.FitsLater` | src/app/SAM.ts:6-10 | a value a constructor stores (`undefined` union, `''`, `null`, `false`, a one-node list) is also a value the field may hold after editing |
| `SamChoiceFacts.FreshConformsLater` | src/app/SAM.ts:1126-1143 | a freshly built node that conforms to `input_type` still conforms outside its initial state (the readonly `insert` flags set to `true` are booleans) |
| `SamChoiceFacts.ReadonlyIsBoolean` | src/app/SAM.ts:1126-1143 | the readonly `insert` flags of Adder and Readout are described as `'boolean'` |
| `SamInputType.InputTypeOfGeometry` | src/app/SAM.ts:12-19 | `input_type(key)` on a `Geometry` node is the switch of `Geometry.input_type` |
| `SamInputType.GeometryInputType` | src/app/SAM.ts:12-19 | the switch of `Geometry.input_type` as a table: the descriptor of each key it has a case for, `None` (`undefined`) for every other key |
| `SamDefaults.NewGeometry` | src/app/SAM.ts:6-10 | `new Geometry()` is a fresh node holding `world` a new Volume, `scanner` undefined, `phantom` undefined, the keys `Geometry.input_type` describes; the fields are `GeometryFields` of the nodes it builds, and each of those nodes is new, is the default of its own class, is not the node itself and is held at one place only (`DefaultNode`) |
| `SamDefaults.GeometryFields` | src/app/SAM.ts:6-10 | the field map `new Geometry()` stores, key by key as the constructor writes it, given the nodes it builds for `world` |
| `SamDefaults.GeometryUnshared` | src/app/SAM.ts:6-10 | no node the fields of `new Geometry()` hold is held by two fields or twice in one list |
| `SamDefaults.GeometryDefault` | src/app/SAM.ts:6-10 | a `Geometry` node holding `GeometryFields` of a node that is the default of its class and not the node is what `new Geometry()` builds: its fields conform to `Geometry.input_type`, and its child nodes are defaults of their own classes, held at one place only |
| `SamDefaults.GeometryFresh` | src/app/SAM.ts:6-10 | `new Geometry()` allocates everything it stores: the node it returns and the nodes it builds for `GeometryFields` are all new, so no node that existed before is reachable from its fields |
| `SamDefaults.GeometryConforms` | src/app/SAM.ts:12-19 | the field map `new Geometry()` stores has the key set of `Geometry.input_type` and every value fits its descriptor: union fields `undefined`, numbers `null`, strings `''`, flags `false`, nodes of the named class, lists of one node |
| `SamDefaults.GeometryKeys` | src/app/SAM.ts:12-19 | `Geometry.input_type` describes exactly the keys `world`, `scanner`, `phantom` that `new Geometry()` stores; every other key gives `undefined` |
| `SamDefaults.GeometryFieldsFit` | src/app/SAM.ts:6-10 | each value `new Geometry()` stores fits the descriptor `Geometry.input_type` gives its key |
| `SamUnionSlots.GeometryUnionFields` | src/app/SAM.ts:12-19 | the tagged-union fields of `Geometry` are exactly `scanner`, `phantom` |
| `SamUnionSlots.GeometryUnionSlots` | src/app/SAM.ts:12-19 | `UnionSlots` lists exactly the union fields of `Geometry` |
| `SamInputType.InputTypeOfScanner` | src/app/SAM.ts:73-82 | `input_type(key)` on a `Scanner` node is the switch of `Scanner.input_type` |
| `SamInputType.ScannerInputType` | src/app/SAM.ts:73-82 | the switch of `Scanner.input_type` as a table: the descriptor of each key it has a case for, `None` (`undefined`) for every other key |
| `SamDefaults.NewScanner` | src/app/SAM.ts:64-71 | `new Scanner()` is a fresh node holding `base` a new Volume, `level1` a new Volume, `level2` a new Volume, `level3` a new Volume, `level4` a new Volume, `level5` a new Volume (`base` comes from the System constructor), the keys `Scanner.input_type` describes; the fields are `ScannerFields` of the nodes it builds, and each of those nodes is new, is the default of its own class, is not the node itself and is held at one place only (`DefaultNode`) |
| `SamDefaults.ScannerFields` | src/app/SAM.ts:64-71 | the field map `new Scanner()` stores, key by key as the constructor writes it, given the nodes it builds for `base`, `level1`, `level2`, `level3`, `level4`, `level5` |
| `SamDefaults.ScannerUnshared` | src/app/SAM.ts:64-71 | no node the fields of `new Scanner()` hold is held by two fields or twice in one list |
| `SamDefaults.ScannerDefault` | src/app/SAM.ts:64-71 | a `Scanner` node holding `ScannerFields` of nodes each the default of its class, not the node and distinct from one another is what `new Scanner()` builds: its fields conform to `Scanner.input_type`, and its child nodes are defaults of their own classes, held at one place only |
| `SamDefaults.ScannerFresh` | src/app/SAM.ts:64-71 | `new Scanner()` allocates everything it stores: the node it returns and the nodes it builds for `ScannerFields` are all new, so no node that existed before is reachable from its fields |
| `SamDefaults.ScannerConforms` | src/app/SAM.ts:73-82 | the field map `new Scanner()` stores has the key set of `Scanner.input_type` and every value fits its descriptor: union fields `undefined`, numbers `null`, strings `''`, flags `false`, nodes of the named class, lists of one node |
| `SamDefaults.ScannerKeys` | src/app/SAM.ts:73-82 | `Scanner.input_type` describes exactly the keys `base`, `level1`, `level2`, `level3`, `level4`, `level5` that `new Scanner()` stores; every other key gives `undefined` |
| `SamDefaults.ScannerFieldsFit` | src/app/SAM.ts:64-71 | each value `new Scanner()` stores fits the descriptor `Scanner.input_type` gives its key |
| `SamUnionSlots.ScannerUnionFields` | src/app/SAM.ts:73-82 | `Scanner.input_type` describes no tagged-union field |
| `SamUnionSlots.ScannerUnionSlots` | src/app/SAM.ts:73-82 | `UnionSlots` lists exactly the union fields of `Scanner` |
| `SamInputType.InputTypeOfCTscanner` | src/app/SAM.ts:97-104 | `input_type(key)` on a `CTscanner` node is the switch of `CTscanner.input_type` with the list fields corrected |
| `SamInputType.CTscannerInputType` | src/app/SAM.ts:97-104 | the switch of `CTscanner.input_type` as a table: the descriptor of each key it has a case for, `None` (`undefined`) for every other key |
| `SamDefaults.NewCTscanner` | src/app/SAM.ts:90-95 | `new CTscanner()` is a fresh node holding `base` a new Volume, `module` a new Volume, `cluster` [a new Volume], `pixel` [a new Volume] (`base` comes from the System constructor), the keys `CTscanner.input_type` describes; the fields are `CTscannerFields` of the nodes it builds, and each of those nodes is new, is the default of its own class, is not the node itself and is held at one place only (`DefaultNode`) |
| `SamDefaults.CTscannerFields` | src/app/SAM.ts:90-95 | the field map `new CTscanner()` stores, key by key as the constructor writes it, given the nodes it builds for `base`, `module`, `cluster`, `pixel` |
| `SamDefaults.CTscannerUnshared` | src/app/SAM.ts:90-95 | no node the fields of `new CTscanner()` hold is held by two fields or twice in one list |
| `SamDefaults.CTscannerDefault` | src/app/SAM.ts:90-95 | a `CTscanner` node holding `CTscannerFields` of nodes each the default of its class, not the node and distinct from one another is what `new CTscanner()` builds: its fields conform to `CTscanner.input_type`, and its child nodes are defaults of their own classes, held at one place only |
| `SamDefaults.CTscannerFresh` | src/app/SAM.ts:90-95 | `new CTscanner()` allocates everything it stores: the node it returns and the nodes it builds for `CTscannerFields` are all new, so no node that existed before is reachable from its fields |
| `SamDefaults.CTscannerConforms` | src/app/SAM.ts:97-104 | the field map `new CTscanner()` stores has the key set of `CTscanner.input_type` and every value fits its descriptor: union fields `undefined`, numbers `null`, strings `''`, flags `false`, nodes of the named class, lists of one node |
| `SamDefaults.CTscannerKeys` | src/app/SAM.ts:97-104 | `CTscanner.input_type` describes exactly the keys `base`, `module`, `cluster`, `pixel` that `new CTscanner()` stores; every other key gives `undefined` |
| `SamDefaults.CTscannerFieldsFit` | src/app/SAM.ts:90-95 | each value `new CTscanner()` stores fits the descriptor `CTscanner.input_type` gives its key |
| `SamUnionSlots.CTscannerUnionFields` | src/app/SAM.ts:97-104 | `CTscanner.input_type` describes no tagged-union field |
| `SamUnionSlots.CTscannerUnionSlots` | src/app/SAM.ts:97-104 | `UnionSlots` lists exactly the union fields of `CTscanner` |
| `SamInputType.InputTypeOfCylindricalPET` | src/app/SAM.ts:123-132 | `input_type(key)` on a `CylindricalPET` node is the switch of `CylindricalPET.input_type` with the list fields corrected |
| `SamInputType.CylindricalPETInputType` | src/app/SAM.ts:123-132 | the switch of `CylindricalPET.input_type` as a table: the descriptor of each key it has a case for, `None` (`undefined`) for every other key |
| `SamDefaults.NewCylindricalPET` | src/app/SAM.ts:114-121 | `new CylindricalPET()` is a fresh node holding `base` a new Volume, `rsector` a new Volume, `module` a new Volume, `submodule` a new Volume, `crystal` a new Volume, `layer` [a new Volume] (`base` comes from the System constructor), the keys `CylindricalPET.input_type` describes; the fields are `CylindricalPETFields` of the nodes it builds, and each of those nodes is new, is the default of its own class, is not the node itself and is held at one place only (`DefaultNode`) |
| `SamDefaults.CylindricalPETFields` | src/app/SAM.ts:114-121 | the field map `new CylindricalPET()` stores, key by key as the constructor writes it, given the nodes it builds for `base`, `rsector`, `module`, `submodule`, `crystal`, `layer` |
| `SamDefaults.CylindricalPETUnshared` | src/app/SAM.ts:114-121 | no node the fields of `new CylindricalPET()` hold is held by two fields or twice in one list |
| `SamDefaults.CylindricalPETDefault` | src/app/SAM.ts:114-121 | a `CylindricalPET` node holding `CylindricalPETFields` of nodes each the default of its class, not the node and distinct from one another is what `new CylindricalPET()` builds: its fields conform to `CylindricalPET.input_type`, and its child nodes are defaults of their own classes, held at one place only |
| `SamDefaults.CylindricalPETFresh` | src/app/SAM.ts:114-121 | `new CylindricalPET()` allocates everything it stores: the node it returns and the nodes it builds for `CylindricalPETFields` are all new, so no node that existed before is reachable from its fields |
| `SamDefaults.CylindricalPETConforms` | src/app/SAM.ts:123-132 | the field map `new CylindricalPET()` stores has the key set of `CylindricalPET.input_type` and every value fits its descriptor: union fields `undefined`, numbers `null`, strings `''`, flags `false`, nodes of the named class, lists of one node |
| `SamDefaults.CylindricalPETKeys` | src/app/SAM.ts:123-132 | `CylindricalPET.input_type` describes exactly the keys `base`, `rsector`, `module`, `submodule`, `crystal`, `layer` that `new CylindricalPET()` stores; every other key gives `undefined` |
| `SamDefaults.CylindricalPETFieldsFit` | src/app/SAM.ts:114-121 | each value `new CylindricalPET()` stores fits the descriptor `CylindricalPET.input_type` gives its key |
| `SamUnionSlots.CylindricalPETUnionFields` | src/app/SAM.ts:123-132 | `CylindricalPET.input_type` describes no tagged-union field |
| `SamUnionSlots.CylindricalPETUnionSlots` | src/app/SAM.ts:123-132 | `UnionSlots` lists exactly the union fields of `CylindricalPET` |
| `SamInputType.InputTypeOfCPET` | src/app/SAM.ts:151-160 | `input_type(key)` on a `CPET` node is the switch of `CPET.input_type` with the list fields corrected |
| `SamInputType.CPETInputType` | src/app/SAM.ts:151-160 | the switch of `CPET.input_type` as a table: the descriptor of each key it has a case for, `None` (`undefined`) for every other key |
| `SamDefaults.NewCPET` | src/app/SAM.ts:142-149 | `new CPET()` is a fresh node holding `base` a new Volume, `sector` a new Volume, `cassette` a new Volume, `module` a new Volume, `crystal` a new Volume, `layer` [a new Volume] (`base` comes from the System constructor), the keys `CPET.input_type` describes; the fields are `CPETFields` of the nodes it builds, and each of those nodes is new, is the default of its own class, is not the node itself and is held at one place only (`DefaultNode`) |
| `SamDefaults.CPETFields` | src/app/SAM.ts:142-149 | the field map `new CPET()` stores, key by key as the constructor writes it, given the nodes it builds for `base`, `sector`, `cassette`, `module`, `crystal`, `layer` |
| `SamDefaults.CPETUnshared` | src/app/SAM.ts:142-149 | no node the fields of `new CPET()` hold is held by two fields or twice in one list |
| `SamDefaults.CPETDefault` | src/app/SAM.ts:142-149 | a `CPET` node holding `CPETFields` of nodes each the default of its class, not the node and distinct from one another is what `new CPET()` builds: its fields conform to `CPET.input_type`, and its child nodes are defaults of their own classes, held at one place only |
| `SamDefaults.CPETFresh` | src/app/SAM.ts:142-149 | `new CPET()` allocates everything it stores: the node it returns and the nodes it builds for `CPETFields` are all new, so no node that existed before is reachable from its fields |
| `SamDefaults.CPETConforms` | src/app/SAM.ts:151-160 | the field map `new CPET()` stores has the key set of `CPET.input_type` and every value fits its descriptor: union fields `undefined`, numbers `null`, strings `''`, flags `false`, nodes of the named class, lists of one node |
| `SamDefaults.CPETKeys` | src/app/SAM.ts:151-160 | `CPET.input_type` describes exactly the keys `base`, `sector`, `cassette`, `module`, `crystal`, `layer` that `new CPET()` stores; every other key gives `undefined` |
| `SamDefaults.CPETFieldsFit` | src/app/SAM.ts:142-149 | each value `new CPET()` stores fits the descriptor `CPET.input_type` gives its key |
| `SamUnionSlots.CPETUnionFields` | src/app/SAM.ts:151-160 | `CPET.input_type` describes no tagged-union field |
| `SamUnionSlots.CPETUnionSlots` | src/app/SAM.ts:151-160 | `UnionSlots` lists exactly the union fields of `CPET` |
| `SamInputType.InputTypeOfECAT` | src/app/SAM.ts:173-179 | `input_type(key)` on a `ECAT` node is the switch of `ECAT.input_type` |
| `SamInputType.ECATInputType` | src/app/SAM.ts:173-179 | the switch of `ECAT.input_type` as a table: the descriptor of each key it has a case for, `None` (`undefined`) for every other key |
| `SamDefaults.NewECAT` | src/app/SAM.ts:167-171 | `new ECAT()` is a fresh node holding `base` a new Volume, `block` a new Volume, `crystal` a new Volume (`base` comes from the System constructor), the keys `ECAT.input_type` describes; the fields are `ECATFields` of the nodes it builds, and each of those nodes is new, is the default of its own class, is not the node itself and is held at one place only (`DefaultNode`) |
| `SamDefaults.ECATFields` | src/app/SAM.ts:167-171 | the field map `new ECAT()` stores, key by key as the constructor writes it, given the nodes it builds for `base`, `block`, `crystal` |
| `SamDefaults.ECATUnshared` | src/app/SAM.ts:167-171 | no node the fields of `new ECAT()` hold is held by two fields or twice in one list |
| `SamDefaults.ECATDefault` | src/app/SAM.ts:167-171 | a `ECAT` node holding `ECATFields` of nodes each the default of its class, not the node and distinct from one another is what `new ECAT()` builds: its fields conform to `ECAT.input_type`, and its child nodes are defaults of their own classes, held at one place only |
| `SamDefaults.ECATFresh` | src/app/SAM.ts:167-171 | `new ECAT()` allocates everything it stores: the node it returns and the nodes it builds for `ECATFields` are all new, so no node that existed before is reachable from its fields |
| `SamDefaults.ECATConforms` | src/app/SAM.ts:173-179 | the field map `new ECAT()` stores has the key set of `ECAT.input_type` and every value fits its descriptor: union fields `undefined`, numbers `null`, strings `''`, flags `false`, nodes of the named class, lists of one node |
| `SamDefaults.ECATKeys` | src/app/SAM.ts:173-179 | `ECAT.input_type` describes exactly the keys `base`, `block`, `crystal` that `new ECAT()` stores; every other key gives `undefined` |
| `SamDefaults.ECATFieldsFit` | src/app/SAM.ts:167-171 | each value `new ECAT()` stores fits the descriptor `ECAT.input_type` gives its key |
| `SamUnionSlots.ECATUnionFields` | src/app/SAM.ts:173-179 | `ECAT.input_type` describes no tagged-union field |
| `SamUnionSlots.ECATUnionSlots` | src/app/SAM.ts:173-179 | `UnionSlots` lists exactly the union fields of `ECAT` |
| `SamInputType.InputTypeOfECATAccel` | src/app/SAM.ts:192-198 | `input_type(key)` on a `ECATAccel` node is the switch of `ECATAccel.input_type` |
| `SamInputType.ECATAccelInputType` | src/app/SAM.ts:192-198 | the switch of `ECATAccel.input_type` as a table: the descriptor of each key it has a case for, `None` (`undefined`) for every other key |
| `SamDefaults.NewECATAccel` | src/app/SAM.ts:186-190 | `new ECATAccel()` is a fresh node holding `base` a new Volume, `block` a new Volume, `crystal` a new Volume (`base` comes from the System constructor), the keys `ECATAccel.input_type` describes; the fields are `ECATAccelFields` of the nodes it builds, and each of those nodes is new, is the default of its own class, is not the node itself and is held at one place only (`DefaultNode`) |
| `SamDefaults.ECATAccelFields` | src/app/SAM.ts:186-190 | the field map `new ECATAccel()` stores, key by key as the constructor writes it, given the nodes it builds for `base`, `block`, `crystal` |
| `SamDefaults.ECATAccelUnshared` | src/app/SAM.ts:186-190 | no node the fields of `new ECATAccel()` hold is held by two fields or twice in one list |
| `SamDefaults.ECATAccelDefault` | src/app/SAM.ts:186-190 | a `ECATAccel` node holding `ECATAccelFields` of nodes each the default of its class, not the node and distinct from one another is what `new ECATAccel()` builds: its fields conform to `ECATAccel.input_type`, and its child nodes are defaults of their own classes, held at one place only |
| `SamDefaults.ECATAccelFresh` | src/app/SAM.ts:186-190 | `new ECATAccel()` allocates everything it stores: the node it returns and the nodes it builds for `ECATAccelFields` are all new, so no node that existed before is reachable from its fields |
| `SamDefaults.ECATAccelConforms` | src/app/SAM.ts:192-198 | the field map `new ECATAccel()` stores has the key set of `ECATAccel.input_type` and every value fits its descriptor: union fields `undefined`, numbers `null`, strings `''`, flags `false`, nodes of the named class, lists of one node |
| `SamDefaults.ECATAccelKeys` | src/app/SAM.ts:192-198 | `ECATAccel.input_type` describes exactly the keys `base`, `block`, `crystal` that `new ECATAccel()` stores; every other key gives `undefined` |
| `SamDefaults.ECATAccelFieldsFit` | src/app/SAM.ts:186-190 | each value `new ECATAccel()` stores fits the descriptor `ECATAccel.input_type` gives its key |
| `SamUnionSlots.ECATAccelUnionFields` | src/app/SAM.ts:192-198 | `ECATAccel.input_type` describes no tagged-union field |
| `SamUnionSlots.ECATAccelUnionSlots` | src/app/SAM.ts:192-198 | `UnionSlots` lists exactly the union fields of `ECATAccel` |
| `SamInputType.InputTypeOfOPET` | src/app/SAM.ts:217-226 | `input_type(key)` on a `OPET` node is the switch of `OPET.input_type` with the list fields corrected |
| `SamInputType.OPETInputType` | src/app/SAM.ts:217-226 | the switch of `OPET.input_type` as a table: the descriptor of each key it has a case for, `None` (`undefined`) for every other key |
| `SamDefaults.NewOPET` | src/app/SAM.ts:208-215 | `new OPET()` is a fresh node holding `base` a new Volume, `rsector` a new Volume, `module` a new Volume, `submodule` a new Volume, `crystal` a new Volume, `layer` [a new Volume] (`base` comes from the System constructor), the keys `OPET.input_type` describes; the fields are `OPETFields` of the nodes it builds, and each of those nodes is new, is the default of its own class, is not the node itself and is held at one place only (`DefaultNode`) |
| `SamDefaults.OPETFields` | src/app/SAM.ts:208-215 | the field map `new OPET()` stores, key by key as the constructor writes it, given the nodes it builds for `base`, `rsector`, `module`, `submodule`, `crystal`, `layer` |
| `SamDefaults.OPETUnshared` | src/app/SAM.ts:208-215 | no node the fields of `new OPET()` hold is held by two fields or twice in one list |
| `SamDefaults.OPETDefault` | src/app/SAM.ts:208-215 | a `OPET` node holding `OPETFields` of nodes each the default of its class, not the node and distinct from one another is what `new OPET()` builds: its fields conform to `OPET.input_type`, and its child nodes are defaults of their own classes, held at one place only |
| `SamDefaults.OPETFresh` | src/app/SAM.ts:208-215 | `new OPET()` allocates everything it stores: the node it returns and the nodes it builds for `OPETFields` are all new, so no node that existed before is reachable from its fields |
| `SamDefaults.OPETConforms` | src/app/SAM.ts:217-226 | the field map `new OPET()` stores has the key set of `OPET.input_type` and every value fits its descriptor: union fields `undefined`, numbers `null`, strings `''`, flags `false`, nodes of the named class, lists of one node |
| `SamDefaults.OPETKeys` | src/app/SAM.ts:217-226 | `OPET.input_type` describes exactly the keys `base`, `rsector`, `module`, `submodule`, `crystal`, `layer` that `new OPET()` stores; every other key gives `undefined` |
| `SamDefaults.OPETFieldsFit` | src/app/SAM.ts:208-215 | each value `new OPET()` stores fits the descriptor `OPET.input_type` gives its key |
| `SamUnionSlots.OPETUnionFields` | src/app/SAM.ts:217-226 | `OPET.input_type` describes no tagged-union field |
| `SamUnionSlots.OPETUnionSlots` | src/app/SAM.ts:217-226 | `UnionSlots` lists exactly the union fields of `OPET` |
| `SamInputType.InputTypeOfSPECThead` | src/app/SAM.ts:239-245 | `input_type(key)` on a `SPECThead` node is the switch of `SPECThead.input_type` |
| `SamInputType.SPECTheadInputType` | src/app/SAM.ts:239-245 | the switch of `SPECThead.input_type` as a table: the descriptor of each key it has a case for, `None` (`undefined`) for every other key |
| `SamDefaults.NewSPECThead` | src/app/SAM.ts:233-237 | `new SPECThead()` is a fresh node holding `base` a new Volume, `crystal` a new Volume, `pixel` a new Volume (`base` comes from the System constructor), the keys `SPECThead.input_type` describes; the fields are `SPECTheadFields` of the nodes it builds, and each of those nodes is new, is the default of its own class, is not the node itself and is held at one place only (`DefaultNode`) |
| `SamDefaults.SPECTheadFields` | src/app/SAM.ts:233-237 | the field map `new SPECThead()` stores, key by key as the constructor writes it, given the nodes it builds for `base`, `crystal`, `pixel` |
| `SamDefaults.SPECTheadUnshared` | src/app/SAM.ts:233-237 | no node the fields of `new SPECThead()` hold is held by two fields or twice in one list |
| `SamDefaults.SPECTheadDefault` | src/app/SAM.ts:233-237 | a `SPECThead` node holding `SPECTheadFields` of nodes each the default of its class, not the node and distinct from one another is what `new SPECThead()` builds: its fields conform to `SPECThead.input_type`, and its child nodes are defaults of their own classes, held at one place only |
| `SamDefaults.SPECTheadFresh` | src/app/SAM.ts:233-237 | `new SPECThead()` allocates everything it stores: the node it returns and the nodes it builds for `SPECTheadFields` are all new, so no node that existed before is reachable from its fields |
| `SamDefaults.SPECTheadConforms` | src/app/SAM.ts:239-245 | the field map `new SPECThead()` stores has the key set of `SPECThead.input_type` and every value fits its descriptor: union fields `undefined`, numbers `null`, strings `''`, flags `false`, nodes of the named class, lists of one node |
| `SamDefaults.SPECTheadKeys` | src/app/SAM.ts:239-245 | `SPECThead.input_type` describes exactly the keys `base`, `crystal`, `pixel` that `new SPECThead()` stores; every other key gives `undefined` |
| `SamDefaults.SPECTheadFieldsFit` | src/app/SAM.ts:233-237 | each value `new SPECThead()` stores fits the descriptor `SPECThead.input_type` gives its key |
| `SamUnionSlots.SPECTheadUnionFields` | src/app/SAM.ts:239-245 | `SPECThead.input_type` describes no tagged-union field |
| `SamUnionSlots.SPECTheadUnionSlots` | src/app/SAM.ts:239-245 | `UnionSlots` lists exactly the union fields of `SPECThead` |
| `SamInputType.InputTypeOfVolume` | src/app/SAM.ts:265-275 | `input_type(key)` on a `Volume` node is the switch of `Volume.input_type` |
| `SamInputType.VolumeInputType` | src/app/SAM.ts:265-275 | the switch of `Volume.input_type` as a table: the descriptor of each key it has a case for, `None` (`undefined`) for every other key |
| `SamDefaults.NewVolume` | src/app/SAM.ts:257-263 | `new Volume()` is a fresh node holding `name` `''`, `shape` undefined, `material` `''`, `attach` `''`, `appearance` a new Appearance, the keys `Volume.input_type` describes; the fields are `VolumeFields` of the nodes it builds, and each of those nodes is new, is the default of its own class, is not the node itself and is held at one place only (`DefaultNode`) |
| `SamDefaults.VolumeFields` | src/app/SAM.ts:257-263 | the field map `new Volume()` stores, key by key as the constructor writes it, given the nodes it builds for `appearance` |
| `SamDefaults.VolumeUnshared` | src/app/SAM.ts:257-263 | no node the fields of `new Volume()` hold is held by two fields or twice in one list |
| `SamDefaults.VolumeDefault` | src/app/SAM.ts:257-263 | a `Volume` node holding `VolumeFields` of a node that is the default of its class and not the node is what `new Volume()` builds: its fields conform to `Volume.input_type`, and its child nodes are defaults of their own classes, held at one place only |
| `SamDefaults.VolumeFresh` | src/app/SAM.ts:257-263 | `new Volume()` allocates everything it stores: the node it returns and the nodes it builds for `VolumeFields` are all new, so no node that existed before is reachable from its fields |
| `SamDefaults.VolumeConforms` | src/app/SAM.ts:265-275 | the field map `new Volume()` stores has the key set of `Volume.input_type` and every value fits its descriptor: union fields `undefined`, numbers `null`, strings `''`, flags `false`, nodes of the named class, lists of one node |
| `SamDefaults.VolumeKeys` | src/app/SAM.ts:265-275 | `Volume.input_type` describes exactly the keys `name`, `shape`, `material`, `attach`, `appearance` that `new Volume()` stores; every other key gives `undefined` |
| `SamDefaults.VolumeFieldsFit` | src/app/SAM.ts:257-263 | each value `new Volume()` stores fits the descriptor `Volume.input_type` gives its key |
| `SamUnionSlots.VolumeUnionFields` | src/app/SAM.ts:265-275 | the tagged-union fields of `Volume` are exactly `shape` |
| `SamUnionSlots.VolumeUnionSlots` | src/app/SAM.ts:265-275 | `UnionSlots` lists exactly the union fields of `Volume` |
| `SamInputType.InputTypeOfBox` | src/app/SAM.ts:314-318 | `input_type(key)` on a `Box` node is the switch of `Box.input_type` |
| `SamInputType.BoxInputType` | src/app/SAM.ts:314-318 | the switch of `Box.input_type` as a table: the descriptor of each key it has a case for, `None` (`undefined`) for every other key |
| `SamDefaults.NewBox` | src/app/SAM.ts:309-312 | `new Box()` is a fresh node holding `size` a new Vec3, the keys `Box.input_type` describes; the fields are `BoxFields` of the nodes it builds, and each of those nodes is new, is the default of its own class, is not the node itself and is held at one place only (`DefaultNode`) |
| `SamDefaults.BoxFields` | src/app/SAM.ts:309-312 | the field map `new Box()` stores, key by key as the constructor writes it, given the nodes it builds for `size` |
| `SamDefaults.BoxUnshared` | src/app/SAM.ts:309-312 | no node the fields of `new Box()` hold is held by two fields or twice in one list |
| `SamDefaults.BoxDefault` | src/app/SAM.ts:309-312 | a `Box` node holding `BoxFields` of a node that is the default of its class and not the node is what `new Box()` builds: its fields conform to `Box.input_type`, and its child nodes are defaults of their own classes, held at one place only |
| `SamDefaults.BoxFresh` | src/app/SAM.ts:309-312 | `new Box()` allocates everything it stores: the node it returns and the nodes it builds for `BoxFields` are all new, so no node that existed before is reachable from its fields |
| `SamDefaults.BoxConforms` | src/app/SAM.ts:314-318 | the field map `new Box()` stores has the key set of `Box.input_type` and every value fits its descriptor: union fields `undefined`, numbers `null`, strings `''`, flags `false`, nodes of the named class, lists of one node |
| `SamUnionSlots.BoxUnionFields` | src/app/SAM.ts:314-318 | `Box.input_type` describes no tagged-union field |
| `SamUnionSlots.BoxUnionSlots` | src/app/SAM.ts:314-318 | `UnionSlots` lists exactly the union fields of `Box` |
| `SamInputType.InputTypeOfSphere` | src/app/SAM.ts:339-348 | `input_type(key)` on a `Sphere` node is the switch of `Sphere.input_type` |
| `SamInputType.SphereInputType` | src/app/SAM.ts:339-348 | the switch of `Sphere.input_type` as a table: the descriptor of each key it has a case for, `None` (`undefined`) for every other key |
| `SamDefaults.NewSphere` | src/app/SAM.ts:329-337 | `new Sphere()` is a fresh node holding `rmin` a new Value, `rmax` a new Value, `phi_start` a new Value, `delta_phi` a new Value, `theta_start` a new Value, `delta_theta` a new Value, the keys `Sphere.input_type` describes; the fields are `SphereFields` of the nodes it builds, and each of those nodes is new, is the default of its own class, is not the node itself and is held at one place only (`DefaultNode`) |
| `SamDefaults.SphereFields` | src/app/SAM.ts:329-337 | the field map `new Sphere()` stores, key by key as the constructor writes it, given the nodes it builds for `rmin`, `rmax`, `phi_start`, `delta_phi`, `theta_start`, `delta_theta` |
| `SamDefaults.SphereUnshared` | src/app/SAM.ts:329-337 | no node the fields of `new Sphere()` hold is held by two fields or twice in one list |
| `SamDefaults.SphereDefault` | src/app/SAM.ts:329-337 | a `Sphere` node holding `SphereFields` of nodes each the default of its class, not the node and distinct from one another is what `new Sphere()` builds: its fields conform to `Sphere.input_type`, and its child nodes are defaults of their own classes, held at one place only |
| `SamDefaults.SphereFresh` | src/app/SAM.ts:329-337 | `new Sphere()` allocates everything it stores: the node it returns and the nodes it builds for `SphereFields` are all new, so no node that existed before is reachable from its fields |
| `SamDefaults.SphereConforms` | src/app/SAM.ts:339-348 | the field map `new Sphere()` stores has the key set of `Sphere.input_type` and every value fits its descriptor: union fields `undefined`, numbers `null`, strings `''`, flags `false`, nodes of the named class, lists of one node |
| `SamDefaults.SphereKeys` | src/app/SAM.ts:339-348 | `Sphere.input_type` describes exactly the keys `rmin`, `rmax`, `phi_start`, `delta_phi`, `theta_start`, `delta_theta` that `new Sphere()` stores; every other key gives `undefined` |
| `SamDefaults.SphereFieldsFit` | src/app/SAM.ts:329-337 | each value `new Sphere()` stores fits the descriptor `Sphere.input_type` gives its key |
| `SamUnionSlots.SphereUnionFields` | src/app/SAM.ts:339-348 | `Sphere.input_type` describes no tagged-union field |
| `SamUnionSlots.SphereUnionSlots` | src/app/SAM.ts:339-348 | `UnionSlots` lists exactly the union fields of `Sphere` |
| `SamInputType.InputTypeOfCylinder` | src/app/SAM.ts:367-375 | `input_type(key)` on a `Cylinder` node is the switch of `Cylinder.input_type` |
| `SamInputType.CylinderInputType` | src/app/SAM.ts:367-375 | the switch of `Cylinder.input_type` as a table: the descriptor of each key it has a case for, `None` (`undefined`) for every other key |
| `SamDefaults.NewCylinder` | src/app/SAM.ts:358-365 | `new Cylinder()` is a fresh node holding `rmin` a new Value, `rmax` a new Value, `height` a new Value, `phi_start` a new Value, `delta_phi` a new Value, the keys `Cylinder.input_type` describes; the fields are `CylinderFields` of the nodes it builds, and each of those nodes is new, is the default of its own class, is not the node itself and is held at one place only (`DefaultNode`) |
| `SamDefaults.CylinderFields` | src/app/SAM.ts:358-365 | the field map `new Cylinder()` stores, key by key as the constructor writes it, given the nodes it builds for `rmin`, `rmax`, `height`, `phi_start`, `delta_phi` |
| `SamDefaults.CylinderUnshared` | src/app/SAM.ts:358-365 | no node the fields of `new Cylinder()` hold is held by two fields or twice in one list |
| `SamDefaults.CylinderDefault` | src/app/SAM.ts:358-365 | a `Cylinder` node holding `CylinderFields` of nodes each the default of its class, not the node and distinct from one another is what `new Cylinder()` builds: its fields conform to `Cylinder.input_type`, and its child nodes are defaults of their own classes, held at one place only |
| `SamDefaults.CylinderFresh` | src/app/SAM.ts:358-365 | `new Cylinder()` allocates everything it stores: the node it returns and the nodes it builds for `CylinderFields` are all new, so no node that existed before is reachable from its fields |
| `SamDefaults.CylinderConforms` | src/app/SAM.ts:367-375 | the field map `new Cylinder()` stores has the key set of `Cylinder.input_type` and every value fits its descriptor: union fields `undefined`, numbers `null`, strings `''`, flags `false`, nodes of the named class, lists of one node |
| `SamDefaults.CylinderKeys` | src/app/SAM.ts:367-375 | `Cylinder.input_type` describes exactly the keys `rmin`, `rmax`, `height`, `phi_start`, `delta_phi` that `new Cylinder()` stores; every other key gives `undefined` |
| `SamDefaults.CylinderFieldsFit` | src/app/SAM.ts:358-365 | each value `new Cylinder()` stores fits the descriptor `Cylinder.input_type` gives its key |
| `SamUnionSlots.CylinderUnionFields` | src/app/SAM.ts:367-375 | `Cylinder.input_type` describes no tagged-union field |
| `SamUnionSlots.CylinderUnionSlots` | src/app/SAM.ts:367-375 | `UnionSlots` lists exactly the union fields of `Cylinder` |
| `SamInputType.InputTypeOfCone` | src/app/SAM.ts:398-408 | `input_type(key)` on a `Cone` node is the switch of `Cone.input_type` |
| `SamInputType.ConeInputType` | src/app/SAM.ts:398-408 | the switch of `Cone.input_type` as a table: the descriptor of each key it has a case for, `None` (`undefined`) for every other key |
| `SamDefaults.NewCone` | src/app/SAM.ts:387-396 | `new Cone()` is a fresh node holding `rmin1` a new Value, `rmax1` a new Value, `rmin2` a new Value, `rmax2` a new Value, `height` a new Value, `phi_start` a new Value, `delta_phi` a new Value, the keys `Cone.input_type` describes; the fields are `ConeFields` of the nodes it builds, and each of those nodes is new, is the default of its own class, is not the node itself and is held at one place only (`DefaultNode`) |
| `SamDefaults.ConeFields` | src/app/SAM.ts:387-396 | the field map `new Cone()` stores, key by key as the constructor writes it, given the nodes it builds for `rmin1`, `rmax1`, `rmin2`, `rmax2`, `height`, `phi_start`, `delta_phi` |
| `SamDefaults.ConeUnshared` | src/app/SAM.ts:387-396 | no node the fields of `new Cone()` hold is held by two fields or twice in one list |
| `SamDefaults.ConeDefault` | src/app/SAM.ts:387-396 | a `Cone` node holding `ConeFields` of nodes each the default of its class, not the node and distinct from one another is what `new Cone()` builds: its fields conform to `Cone.input_type`, and its child nodes are defaults of their own classes, held at one place only |
| `SamDefaults.ConeFresh` | src/app/SAM.ts:387-396 | `new Cone()` allocates everything it stores: the node it returns and the nodes it builds for `ConeFields` are all new, so no node that existed before is reachable from its fields |
| `SamDefaults.ConeConforms` | src/app/SAM.ts:398-408 | the field map `new Cone()` stores has the key set of `Cone.input_type` and every value fits its descriptor: union fields `undefined`, numbers `null`, strings `''`, flags `false`, nodes of the named class, lists of one node |
| `SamDefaults.ConeKeys` | src/app/SAM.ts:398-408 | `Cone.input_type` describes exactly the keys `rmin1`, `rmax1`, `rmin2`, `rmax2`, `height`, `phi_start`, `delta_phi` that `new Cone()` stores; every other key gives `undefined` |
| `SamDefaults.ConeFieldsFit` | src/app/SAM.ts:387-396 | each value `new Cone()` stores fits the descriptor `Cone.input_type` gives its key |
| `SamUnionSlots.ConeUnionFields` | src/app/SAM.ts:398-408 | `Cone.input_type` describes no tagged-union field |
| `SamUnionSlots.ConeUnionSlots` | src/app/SAM.ts:398-408 | `UnionSlots` lists exactly the union fields of `Cone` |
| `SamInputType.InputTypeOfEllipsoid` | src/app/SAM.ts:423-429 | `input_type(key)` on a `Ellipsoid` node is the switch of `Ellipsoid.input_type` |
| `SamInputType.EllipsoidInputType` | src/app/SAM.ts:423-429 | the switch of `Ellipsoid.input_type` as a table: the descriptor of each key it has a case for, `None` (`undefined`) for every other key |
| `SamDefaults.NewEllipsoid` | src/app/SAM.ts:416-421 | `new Ellipsoid()` is a fresh node holding `size` a new Vec3, `z_bottom_cut` a new Value, `z_top_cut` a new Value, the keys `Ellipsoid.input_type` describes; the fields are `EllipsoidFields` of the nodes it builds, and each of those nodes is new, is the default of its own class, is not the node itself and is held at one place only (`DefaultNode`) |
| `SamDefaults.EllipsoidFields` | src/app/SAM.ts:416-421 | the field map `new Ellipsoid()` stores, key by key as the constructor writes it, given the nodes it builds for `size`, `z_bottom_cut`, `z_top_cut` |
| `SamDefaults.EllipsoidUnshared` | src/app/SAM.ts:416-421 | no node the fields of `new Ellipsoid()` hold is held by two fields or twice in one list |
| `SamDefaults.EllipsoidDefault` | src/app/SAM.ts:416-421 | a `Ellipsoid` node holding `EllipsoidFields` of nodes each the default of its class, not the node and distinct from one another is what `new Ellipsoid()` builds: its fields conform to `Ellipsoid.input_type`, and its child nodes are defaults of their own classes, held at one place only |
| `SamDefaults.EllipsoidFresh` | src/app/SAM.ts:416-421 | `new Ellipsoid()` allocates everything it stores: the node it returns and the nodes it builds for `EllipsoidFields` are all new, so no node that existed before is reachable from its fields |
| `SamDefaults.EllipsoidConforms` | src/app/SAM.ts:423-429 | the field map `new Ellipsoid()` stores has the key set of `Ellipsoid.input_type` and every value fits its descriptor: union fields `undefined`, numbers `null`, strings `''`, flags `false`, nodes of the named class, lists of one node |
| `SamDefaults.EllipsoidKeys` | src/app/SAM.ts:423-429 | `Ellipsoid.input_type` describes exactly the keys `size`, `z_bottom_cut`, `z_top_cut` that `new Ellipsoid()` stores; every other key gives `undefined` |
| `SamDefaults.EllipsoidFieldsFit` | src/app/SAM.ts:416-421 | each value `new Ellipsoid()` stores fits the descriptor `Ellipsoid.input_type` gives its key |
| `SamUnionSlots.EllipsoidUnionFields` | src/app/SAM.ts:423-429 | `Ellipsoid.input_type` describes no tagged-union field |
| `SamUnionSlots.EllipsoidUnionSlots` | src/app/SAM.ts:423-429 | `UnionSlots` lists exactly the union fields of `Ellipsoid` |
| `SamInputType.InputTypeOfEllipticalTube` | src/app/SAM.ts:444-450 | `input_type(key)` on a `EllipticalTube` node is the switch of `EllipticalTube.input_type` |
| `SamInputType.EllipticalTubeInputType` | src/app/SAM.ts:444-450 | the switch of `EllipticalTube.input_type` as a table: the descriptor of each key it has a case for, `None` (`undefined`) for every other key |
| `SamDefaults.NewEllipticalTube` | src/app/SAM.ts:437-442 | `new EllipticalTube()` is a fresh node holding `long` a new Value, `short` a new Value, `height` a new Value, the keys `EllipticalTube.input_type` describes; the fields are `EllipticalTubeFields` of the nodes it builds, and each of those nodes is new, is the default of its own class, is not the node itself and is held at one place only (`DefaultNode`) |
| `SamDefaults.EllipticalTubeFields` | src/app/SAM.ts:437-442 | the field map `new EllipticalTube()` stores, key by key as the constructor writes it, given the nodes it builds for `long`, `short`, `height` |
| `SamDefaults.EllipticalTubeUnshared` | src/app/SAM.ts:437-442 | no node the fields of `new EllipticalTube()` hold is held by two fields or twice in one list |
| `SamDefaults.EllipticalTubeDefault` | src/app/SAM.ts:437-442 | a `EllipticalTube` node holding `EllipticalTubeFields` of nodes each the default of its class, not the node and distinct from one another is what `new EllipticalTube()` builds: its fields conform to `EllipticalTube.input_type`, and its child nodes are defaults of their own classes, held at one place only |
| `SamDefaults.EllipticalTubeFresh` | src/app/SAM.ts:437-442 | `new EllipticalTube()` allocates everything it stores: the node it returns and the nodes it builds for `EllipticalTubeFields` are all new, so no node that existed before is reachable from its fields |
| `SamDefaults.EllipticalTubeConforms` | src/app/SAM.ts:444-450 | the field map `new EllipticalTube()` stores has the key set of `EllipticalTube.input_type` and every value fits its descriptor: union fields `undefined`, numbers `null`, strings `''`, flags `false`, nodes of the named class, lists of one node |
| `SamDefaults.EllipticalTubeKeys` | src/app/SAM.ts:444-450 | `EllipticalTube.input_type` describes exactly the keys `long`, `short`, `height` that `new EllipticalTube()` stores; every other key gives `undefined` |
| `SamDefaults.EllipticalTubeFieldsFit` | src/app/SAM.ts:437-442 | each value `new EllipticalTube()` stores fits the descriptor `EllipticalTube.input_type` gives its key |
| `SamUnionSlots.EllipticalTubeUnionFields` | src/app/SAM.ts:444-450 | `EllipticalTube.input_type` describes no tagged-union field |
| `SamUnionSlots.EllipticalTubeUnionSlots` | src/app/SAM.ts:444-450 | `UnionSlots` lists exactly the union fields of `EllipticalTube` |
| `SamInputType.InputTypeOfTessellated` | src/app/SAM.ts:461-465 | `input_type(key)` on a `Tessellated` node is the switch of `Tessellated.input_type` |
| `SamInputType.TessellatedInputType` | src/app/SAM.ts:461-465 | the switch of `Tessellated.input_type` as a table: the descriptor of each key it has a case for, `None` (`undefined`) for every other key |
| `SamDefaults.NewTessellated` | src/app/SAM.ts:456-459 | `new Tessellated()` is a fresh node holding `path_to_vertices_file` `''`, the keys `Tessellated.input_type` describes; the fields are `TessellatedFields()` and hold no node (`DefaultNode`) |
| `SamDefaults.TessellatedFields` | src/app/SAM.ts:456-459 | the field map `new Tessellated()` stores, key by key as the constructor writes it, holding no node |
| `SamDefaults.TessellatedChildren` | src/app/SAM.ts:456-459 | the fields of `new Tessellated()` hold no node, so none is shared |
| `SamDefaults.TessellatedDefault` | src/app/SAM.ts:456-459 | a `Tessellated` node holding `TessellatedFields` of no nodes is what `new Tessellated()` builds: its fields conform to `Tessellated.input_type` |
| `SamDefaults.TessellatedConforms` | src/app/SAM.ts:461-465 | the field map `new Tessellated()` stores has the key set of `Tessellated.input_type` and every value fits its descriptor: union fields `undefined`, numbers `null`, strings `''`, flags `false`, nodes of the named class, lists of one node |
| `SamUnionSlots.TessellatedUnionFields` | src/app/SAM.ts:461-465 | `Tessellated.input_type` describes no tagged-union field |
| `SamUnionSlots.TessellatedUnionSlots` | src/app/SAM.ts:461-465 | `UnionSlots` lists exactly the union fields of `Tessellated` |
| `SamInputType.InputTypeOfTetMeshBox` | src/app/SAM.ts:480-486 | `input_type(key)` on a `TetMeshBox` node is the switch of `TetMeshBox.input_type` |
| `SamInputType.TetMeshBoxInputType` | src/app/SAM.ts:480-486 | the switch of `TetMeshBox.input_type` as a table: the descriptor of each key it has a case for, `None` (`undefined`) for every other key |
| `SamDefaults.NewTetMeshBox` | src/app/SAM.ts:473-478 | `new TetMeshBox()` is a fresh node holding `path_to_ele_file` `''`, `unit_of_length` `''`, `path_to_attribute_map` `''`, the keys `TetMeshBox.input_type` describes; the fields are `TetMeshBoxFields()` and hold no node (`DefaultNode`) |
| `SamDefaults.TetMeshBoxFields` | src/app/SAM.ts:473-478 | the field map `new TetMeshBox()` stores, key by key as the constructor writes it, holding no node |
| `SamDefaults.TetMeshBoxChildren` | src/app/SAM.ts:473-478 | the fields of `new TetMeshBox()` hold no node, so none is shared |
| `SamDefaults.TetMeshBoxDefault` | src/app/SAM.ts:473-478 | a `TetMeshBox` node holding `TetMeshBoxFields` of no nodes is what `new TetMeshBox()` builds: its fields conform to `TetMeshBox.input_type` |
| `SamDefaults.TetMeshBoxConforms` | src/app/SAM.ts:480-486 | the field map `new TetMeshBox()` stores has the key set of `TetMeshBox.input_type` and every value fits its descriptor: union fields `undefined`, numbers `null`, strings `''`, flags `false`, nodes of the named class, lists of one node |
| `SamDefaults.TetMeshBoxKeys` | src/app/SAM.ts:480-486 | `TetMeshBox.input_type` describes exactly the keys `path_to_ele_file`, `unit_of_length`, `path_to_attribute_map` that `new TetMeshBox()` stores; every other key gives `undefined` |
| `SamDefaults.TetMeshBoxFieldsFit` | src/app/SAM.ts:473-478 | each value `new TetMeshBox()` stores fits the descriptor `TetMeshBox.input_type` gives its key |
| `SamUnionSlots.TetMeshBoxUnionFields` | src/app/SAM.ts:480-486 | `TetMeshBox.input_type` describes no tagged-union field |
| `SamUnionSlots.TetMeshBoxUnionSlots` | src/app/SAM.ts:480-486 | `UnionSlots` lists exactly the union fields of `TetMeshBox` |
| `SamInputType.InputTypeOfTRPD` | src/app/SAM.ts:509-519 | `input_type(key)` on a `TRPD` node is the switch of `TRPD.input_type` |
| `SamInputType.TRPDInputType` | src/app/SAM.ts:509-519 | the switch of `TRPD.input_type` as a table: the descriptor of each key it has a case for, `None` (`undefined`) for every other key |
| `SamDefaults.NewTRPD` | src/app/SAM.ts:498-507 | `new TRPD()` is a fresh node holding `x1` a new Value, `y1` a new Value, `x2` a new Value, `y2` a new Value, `z` a new Value, `box_size` a new Vec3, `box_pos` a new Vec3, the keys `TRPD.input_type` describes; the fields are `TRPDFields` of the nodes it builds, and each of those nodes is new, is the default of its own class, is not the node itself and is held at one place only (`DefaultNode`) |
| `SamDefaults.TRPDFields` | src/app/SAM.ts:498-507 | the field map `new TRPD()` stores, key by key as the constructor writes it, given the nodes it builds for `x1`, `y1`, `x2`, `y2`, `z`, `box_size`, `box_pos` |
| `SamDefaults.TRPDUnshared` | src/app/SAM.ts:498-507 | no node the fields of `new TRPD()` hold is held by two fields or twice in one list |
| `SamDefaults.TRPDDefault` | src/app/SAM.ts:498-507 | a `TRPD` node holding `TRPDFields` of nodes each the default of its class, not the node and distinct from one another is what `new TRPD()` builds: its fields conform to `TRPD.input_type`, and its child nodes are defaults of their own classes, held at one place only |
| `SamDefaults.TRPDFresh` | src/app/SAM.ts:498-507 | `new TRPD()` allocates everything it stores: the node it returns and the nodes it builds for `TRPDFields` are all new, so no node that existed before is reachable from its fields |
| `SamDefaults.TRPDConforms` | src/app/SAM.ts:509-519 | the field map `new TRPD()` stores has the key set of `TRPD.input_type` and every value fits its descriptor: union fields `undefined`, numbers `null`, strings `''`, flags `false`, nodes of the named class, lists of one node |
| `SamDefaults.TRPDKeys` | src/app/SAM.ts:509-519 | `TRPD.input_type` describes exactly the keys `x1`, `y1`, `x2`, `y2`, `z`, `box_size`, `box_pos` that `new TRPD()` stores; every other key gives `undefined` |
| `SamDefaults.TRPDFieldsFit` | src/app/SAM.ts:498-507 | each value `new TRPD()` stores fits the descriptor `TRPD.input_type` gives its key |
| `SamUnionSlots.TRPDUnionFields` | src/app/SAM.ts:509-519 | `TRPD.input_type` describes no tagged-union field |
| `SamUnionSlots.TRPDUnionSlots` | src/app/SAM.ts:509-519 | `UnionSlots` lists exactly the union fields of `TRPD` |
| `SamInputType.InputTypeOfHexagone` | src/app/SAM.ts:532-537 | `input_type(key)` on a `Hexagone` node is the switch of `Hexagone.input_type` |
| `SamInputType.HexagoneInputType` | src/app/SAM.ts:532-537 | the switch of `Hexagone.input_type` as a table: the descriptor of each key it has a case for, `None` (`undefined`) for every other key |
| `SamDefaults.NewHexagone` | src/app/SAM.ts:526-530 | `new Hexagone()` is a fresh node holding `radius` a new Value, `height` a new Value, the keys `Hexagone.input_type` describes; the fields are `HexagoneFields` of the nodes it builds, and each of those nodes is new, is the default of its own class, is not the node itself and is held at one place only (`DefaultNode`) |
| `SamDefaults.HexagoneFields` | src/app/SAM.ts:526-530 | the field map `new Hexagone()` stores, key by key as the constructor writes it, given the nodes it builds for `radius`, `height` |
| `SamDefaults.HexagoneUnshared` | src/app/SAM.ts:526-530 | no node the fields of `new Hexagone()` hold is held by two fields or twice in one list |
| `SamDefaults.HexagoneDefault` | src/app/SAM.ts:526-530 | a `Hexagone` node holding `HexagoneFields` of nodes each the default of its class, not the node and distinct from one another is what `new Hexagone()` builds: its fields conform to `Hexagone.input_type`, and its child nodes are defaults of their own classes, held at one place only |
| `SamDefaults.HexagoneFresh` | src/app/SAM.ts:526-530 | `new Hexagone()` allocates everything it stores: the node it returns and the nodes it builds for `HexagoneFields` are all new, so no node that existed before is reachable from its fields |
| `SamDefaults.HexagoneConforms` | src/app/SAM.ts:532-537 | the field map `new Hexagone()` stores has the key set of `Hexagone.input_type` and every value fits its descriptor: union fields `undefined`, numbers `null`, strings `''`, flags `false`, nodes of the named class, lists of one node |
| `SamUnionSlots.HexagoneUnionFields` | src/app/SAM.ts:532-537 | `Hexagone.input_type` describes no tagged-union field |
| `SamUnionSlots.HexagoneUnionSlots` | src/app/SAM.ts:532-537 | `UnionSlots` lists exactly the union fields of `Hexagone` |
| `SamInputType.InputTypeOfWedge` | src/app/SAM.ts:550-555 | `input_type(key)` on a `Wedge` node is the switch of `Wedge.input_type` |
| `SamInputType.WedgeInputType` | src/app/SAM.ts:550-555 | the switch of `Wedge.input_type` as a table: the descriptor of each key it has a case for, `None` (`undefined`) for every other key |
| `SamDefaults.NewWedge` | src/app/SAM.ts:544-548 | `new Wedge()` is a fresh node holding `narrower_xlength` a new Value, `size` a new Vec3, the keys `Wedge.input_type` describes; the fields are `WedgeFields` of the nodes it builds, and each of those nodes is new, is the default of its own class, is not the node itself and is held at one place only (`DefaultNode`) |
| `SamDefaults.WedgeFields` | src/app/SAM.ts:544-548 | the field map `new Wedge()` stores, key by key as the constructor writes it, given the nodes it builds for `narrower_xlength`, `size` |
| `SamDefaults.WedgeUnshared` | src/app/SAM.ts:544-548 | no node the fields of `new Wedge()` hold is held by two fields or twice in one list |
| `SamDefaults.WedgeDefault` | src/app/SAM.ts:544-548 | a `Wedge` node holding `WedgeFields` of nodes each the default of its class, not the node and distinct from one another is what `new Wedge()` builds: its fields conform to `Wedge.input_type`, and its child nodes are defaults of their own classes, held at one place only |
| `SamDefaults.WedgeFresh` | src/app/SAM.ts:544-548 | `new Wedge()` allocates everything it stores: the node it returns and the nodes it builds for `WedgeFields` are all new, so no node that existed before is reachable from its fields |
| `SamDefaults.WedgeConforms` | src/app/SAM.ts:550-555 | the field map `new Wedge()` stores has the key set of `Wedge.input_type` and every value fits its descriptor: union fields `undefined`, numbers `null`, strings `''`, flags `false`, nodes of the named class, lists of one node |
| `SamUnionSlots.WedgeUnionFields` | src/app/SAM.ts:550-555 | `Wedge.input_type` describes no tagged-union field |
| `SamUnionSlots.WedgeUnionSlots` | src/app/SAM.ts:550-555 | `UnionSlots` lists exactly the union fields of `Wedge` |
| `SamInputType.InputTypeOfAppearance` | src/app/SAM.ts:685-695 | `input_type(key)` on a `Appearance` node is the switch of `Appearance.input_type` |
| `SamInputType.AppearanceInputType` | src/app/SAM.ts:685-695 | the switch of `Appearance.input_type` as a table: the descriptor of each key it has a case for, `None` (`undefined`) for every other key |
| `SamDefaults.NewAppearance` | src/app/SAM.ts:675-683 | `new Appearance()` is a fresh node holding `color` `''`, `visible` false, `daughters_invisible` false, `line_style` `''`, `line_width` null, `force_solid` false, `force_wireframe` false, the keys `Appearance.input_type` describes; the fields are `AppearanceFields()` and hold no node (`DefaultNode`) |
| `SamDefaults.AppearanceFields` | src/app/SAM.ts:675-683 | the field map `new Appearance()` stores, key by key as the constructor writes it, holding no node |
| `SamDefaults.AppearanceChildren` | src/app/SAM.ts:675-683 | the fields of `new Appearance()` hold no node, so none is shared |
| `SamDefaults.AppearanceDefault` | src/app/SAM.ts:675-683 | a `Appearance` node holding `AppearanceFields` of no nodes is what `new Appearance()` builds: its fields conform to `Appearance.input_type` |
| `SamDefaults.AppearanceConforms` | src/app/SAM.ts:685-695 | the field map `new Appearance()` stores has the key set of `Appearance.input_type` and every value fits its descriptor: union fields `undefined`, numbers `null`, strings `''`, flags `false`, nodes of the named class, lists of one node |
| `SamDefaults.AppearanceKeys` | src/app/SAM.ts:685-695 | `Appearance.input_type` describes exactly the keys `color`, `visible`, `daughters_invisible`, `line_style`, `line_width`, `force_solid`, `force_wireframe` that `new Appearance()` stores; every other key gives `undefined` |
| `SamDefaults.AppearanceFieldsFit` | src/app/SAM.ts:675-683 | each value `new Appearance()` stores fits the descriptor `Appearance.input_type` gives its key |
| `SamUnionSlots.AppearanceUnionFields` | src/app/SAM.ts:685-695 | `Appearance.input_type` describes no tagged-union field |
| `SamUnionSlots.AppearanceUnionSlots` | src/app/SAM.ts:685-695 | `UnionSlots` lists exactly the union fields of `Appearance` |
| `SamInputType.InputTypeOfVoxelizedPhantom` | src/app/SAM.ts:735-753 | `input_type(key)` on a `VoxelizedPhantom` node is the switch of `VoxelizedPhantom.input_type` |
| `SamInputType.VoxelizedPhantomInputType` | src/app/SAM.ts:735-753 | the switch of `VoxelizedPhantom.input_type` as a table: the descriptor of each key it has a case for, `None` (`undefined`) for every other key |
| `SamDefaults.NewVoxelizedPhantom` | src/app/SAM.ts:717-733 | `new VoxelizedPhantom()` is a fresh node holding `name` `''`, `insert` `''`, `image` `''`, `material_database` `''`, `range_to_material_file` `''`, `hu_to_material_file` `''`, `attach` `''`, `skip_equal_materials` false, `material_table` `''`, `density_table` `''`, `density_tolerance` a new Value, `output_material_database_filename` `''`, `output_hu_material_filename` `''`, `fictitious_energy` a new Value, `gamma_discard_energy` a new Value, the keys `VoxelizedPhantom.input_type` describes; the fields are `VoxelizedPhantomFields` of the nodes it builds, and each of those nodes is new, is the default of its own class, is not the node itself and is held at one place only (`DefaultNode`) |
| `SamDefaults.VoxelizedPhantomFields` | src/app/SAM.ts:717-733 | the field map `new VoxelizedPhantom()` stores, key by key as the constructor writes it, given the nodes it builds for `density_tolerance`, `fictitious_energy`, `gamma_discard_energy` |
| `SamDefaults.VoxelizedPhantomUnshared` | src/app/SAM.ts:717-733 | no node the fields of `new VoxelizedPhantom()` hold is held by two fields or twice in one list |
| `SamDefaults.VoxelizedPhantomDefault` | src/app/SAM.ts:717-733 | a `VoxelizedPhantom` node holding `VoxelizedPhantomFields` of nodes each the default of its class, not the node and distinct from one another is what `new VoxelizedPhantom()` builds: its fields conform to `VoxelizedPhantom.input_type`, and its child nodes are defaults of their own classes, held at one place only |
| `SamDefaults.VoxelizedPhantomFresh` | src/app/SAM.ts:717-733 | `new VoxelizedPhantom()` allocates everything it stores: the node it returns and the nodes it builds for `VoxelizedPhantomFields` are all new, so no node that existed before is reachable from its fields |
| `SamDefaults.VoxelizedPhantomConforms` | src/app/SAM.ts:735-753 | the field map `new VoxelizedPhantom()` stores has the key set of `VoxelizedPhantom.input_type` and every value fits its descriptor: union fields `undefined`, numbers `null`, strings `''`, flags `false`, nodes of the named class, lists of one node |
| `SamDefaults.VoxelizedPhantomKeys` | src/app/SAM.ts:735-753 | `VoxelizedPhantom.input_type` describes exactly the keys `name`, `insert`, `image`, `material_database`, `range_to_material_file`, `hu_to_material_file`, `attach`, `skip_equal_materials`, `material_table`, `density_table`, `density_tolerance`, `output_material_database_filename`, `output_hu_material_filename`, `fictitious_energy`, `gamma_discard_energy` that `new VoxelizedPhantom()` stores; every other key gives `undefined` |
| `SamDefaults.VoxelizedPhantomFieldsFit` | src/app/SAM.ts:717-733 | each value `new VoxelizedPhantom()` stores fits the descriptor `VoxelizedPhantom.input_type` gives its key |
| `SamDefaults.VoxelizedPhantomFieldsFit1` | src/app/SAM.ts:717-733 | the values `new VoxelizedPhantom()` stores in `name`, `insert`, `image`, `material_database`, `range_to_material_file` fit their descriptors |
| `SamDefaults.VoxelizedPhantomFieldsFit2` | src/app/SAM.ts:717-733 | the values `new VoxelizedPhantom()` stores in `hu_to_material_file`, `attach`, `skip_equal_materials`, `material_table`, `density_table` fit their descriptors |
| `SamDefaults.VoxelizedPhantomFieldsFit3` | src/app/SAM.ts:717-733 | the values `new VoxelizedPhantom()` stores in `density_tolerance`, `output_material_database_filename`, `output_hu_material_filename`, `fictitious_energy`, `gamma_discard_energy` fit their descriptors |
| `SamUnionSlots.VoxelizedPhantomUnionFields` | src/app/SAM.ts:735-753 | `VoxelizedPhantom.input_type` describes no tagged-union field |
| `SamUnionSlots.VoxelizedPhantomUnionSlots` | src/app/SAM.ts:735-753 | `UnionSlots` lists exactly the union fields of `VoxelizedPhantom` |
| `SamInputType.InputTypeOfVec3` | src/app/SAM.ts:767-772 | `input_type(key)` on a `Vec3` node is the switch of `Vec3.input_type` |
| `SamInputType.Vec3InputType` | src/app/SAM.ts:767-772 | the switch of `Vec3.input_type` as a table: the descriptor of each key it has a case for, `None` (`undefined`) for every other key |
| `SamDefaults.NewVec3` | src/app/SAM.ts:762-765 | `new Vec3()` is a fresh node holding `value` [null, null, null], `unit` `''`, the keys `Vec3.input_type` describes; the fields are `Vec3Fields()` and hold no node (`DefaultNode`) |
| `SamDefaults.Vec3Fields` | src/app/SAM.ts:762-765 | the field map `new Vec3()` stores, key by key as the constructor writes it, holding no node |
| `SamDefaults.Vec3Children` | src/app/SAM.ts:762-765 | the fields of `new Vec3()` hold no node, so none is shared |
| `SamDefaults.Vec3Default` | src/app/SAM.ts:762-765 | a `Vec3` node holding `Vec3Fields` of no nodes is what `new Vec3()` builds: its fields conform to `Vec3.input_type` |
| `SamDefaults.Vec3Conforms` | src/app/SAM.ts:767-772 | the field map `new Vec3()` stores has the key set of `Vec3.input_type` and every value fits its descriptor: union fields `undefined`, numbers `null`, strings `''`, flags `false`, nodes of the named class, lists of one node |
| `SamUnionSlots.Vec3UnionFields` | src/app/SAM.ts:767-772 | `Vec3.input_type` describes no tagged-union field |
| `SamUnionSlots.Vec3UnionSlots` | src/app/SAM.ts:767-772 | `UnionSlots` lists exactly the union fields of `Vec3` |
| `SamInputType.InputTypeOfValue` | src/app/SAM.ts:785-790 | `input_type(key)` on a `Value` node is the switch of `Value.input_type` |
| `SamInputType.ValueInputType` | src/app/SAM.ts:785-790 | the switch of `Value.input_type` as a table: the descriptor of each key it has a case for, `None` (`undefined`) for every other key |
| `SamDefaults.NewValue` | src/app/SAM.ts:780-783 | `new Value()` is a fresh node holding `num` null, `unit` `''`, the keys `Value.input_type` describes; the fields are `ValueFields()` and hold no node (`DefaultNode`) |
| `SamDefaults.ValueFields` | src/app/SAM.ts:780-783 | the field map `new Value()` stores, key by key as the constructor writes it, holding no node |
| `SamDefaults.ValueChildren` | src/app/SAM.ts:780-783 | the fields of `new Value()` hold no node, so none is shared |
| `SamDefaults.ValueDefault` | src/app/SAM.ts:780-783 | a `Value` node holding `ValueFields` of no nodes is what `new Value()` builds: its fields conform to `Value.input_type` |
| `SamDefaults.ValueConforms` | src/app/SAM.ts:785-790 | the field map `new Value()` stores has the key set of `Value.input_type` and every value fits its descriptor: union fields `undefined`, numbers `null`, strings `''`, flags `false`, nodes of the named class, lists of one node |
| `SamUnionSlots.ValueUnionFields` | src/app/SAM.ts:785-790 | `Value.input_type` describes no tagged-union field |
| `SamUnionSlots.ValueUnionSlots` | src/app/SAM.ts:785-790 | `UnionSlots` lists exactly the union fields of `Value` |
| `SamInputType.InputTypeOfPhysics` | src/app/SAM.ts:812-821 | `input_type(key)` on a `Physics` node is the switch of `Physics.input_type` |
| `SamInputType.PhysicsInputType` | src/app/SAM.ts:812-821 | the switch of `Physics.input_type` as a table: the descriptor of each key it has a case for, `None` (`undefined`) for every other key |
| `SamDefaults.NewPhysics` | src/app/SAM.ts:803-810 | `new Physics()` is a fresh node holding `physics_list` `''`, `cut_in_world` a new CutInRegion, `cut_in_patient` a new CutInRegion, `activate_step_limiter` `''`, `process` [a new Process], `mag_field` a new Vec3, the keys `Physics.input_type` describes; the fields are `PhysicsFields` of the nodes it builds, and each of those nodes is new, is the default of its own class, is not the node itself and is held at one place only (`DefaultNode`) |
| `SamDefaults.PhysicsFields` | src/app/SAM.ts:803-810 | the field map `new Physics()` stores, key by key as the constructor writes it, given the nodes it builds for `cut_in_world`, `cut_in_patient`, `process`, `mag_field` |
| `SamDefaults.PhysicsUnshared` | src/app/SAM.ts:803-810 | no node the fields of `new Physics()` hold is held by two fields or twice in one list |
| `SamDefaults.PhysicsDefault` | src/app/SAM.ts:803-810 | a `Physics` node holding `PhysicsFields` of nodes each the default of its class, not the node and distinct from one another is what `new Physics()` builds: its fields conform to `Physics.input_type`, and its child nodes are defaults of their own classes, held at one place only |
| `SamDefaults.PhysicsFresh` | src/app/SAM.ts:803-810 | `new Physics()` allocates everything it stores: the node it returns and the nodes it builds for `PhysicsFields` are all new, so no node that existed before is reachable from its fields |
| `SamDefaults.PhysicsConforms` | src/app/SAM.ts:812-821 | the field map `new Physics()` stores has the key set of `Physics.input_type` and every value fits its descriptor: union fields `undefined`, numbers `null`, strings `''`, flags `false`, nodes of the named class, lists of one node |
| `SamDefaults.PhysicsKeys` | src/app/SAM.ts:812-821 | `Physics.input_type` describes exactly the keys `physics_list`, `cut_in_world`, `cut_in_patient`, `activate_step_limiter`, `process`, `mag_field` that `new Physics()` stores; every other key gives `undefined` |
| `SamDefaults.PhysicsFieldsFit` | src/app/SAM.ts:803-810 | each value `new Physics()` stores fits the descriptor `Physics.input_type` gives its key |
| `SamUnionSlots.PhysicsUnionFields` | src/app/SAM.ts:812-821 | `Physics.input_type` describes no tagged-union field |
| `SamUnionSlots.PhysicsUnionSlots` | src/app/SAM.ts:812-821 | `UnionSlots` lists exactly the union fields of `Physics` |
| `SamInputType.InputTypeOfCutInRegion` | src/app/SAM.ts:839-847 | `input_type(key)` on a `CutInRegion` node is the switch of `CutInRegion.input_type` |
| `SamInputType.CutInRegionInputType` | src/app/SAM.ts:839-847 | the switch of `CutInRegion.input_type` as a table: the descriptor of each key it has a case for, `None` (`undefined`) for every other key |
| `SamDefaults.NewCutInRegion` | src/app/SAM.ts:831-837 | `new CutInRegion()` is a fresh node holding `gamma` a new Value, `electron` a new Value, `positron` a new Value, `proton` a new Value, `max_step` a new Value, the keys `CutInRegion.input_type` describes; the fields are `CutInRegionFields` of the nodes it builds, and each of those nodes is new, is the default of its own class, is not the node itself and is held at one place only (`DefaultNode`) |
| `SamDefaults.CutInRegionFields` | src/app/SAM.ts:831-837 | the field map `new CutInRegion()` stores, key by key as the constructor writes it, given the nodes it builds for `gamma`, `electron`, `positron`, `proton`, `max_step` |
| `SamDefaults.CutInRegionUnshared` | src/app/SAM.ts:831-837 | no node the fields of `new CutInRegion()` hold is held by two fields or twice in one list |
| `SamDefaults.CutInRegionDefault` | src/app/SAM.ts:831-837 | a `CutInRegion` node holding `CutInRegionFields` of nodes each the default of its class, not the node and distinct from one another is what `new CutInRegion()` builds: its fields conform to `CutInRegion.input_type`, and its child nodes are defaults of their own classes, held at one place only |
| `SamDefaults.CutInRegionFresh` | src/app/SAM.ts:831-837 | `new CutInRegion()` allocates everything it stores: the node it returns and the nodes it builds for `CutInRegionFields` are all new, so no node that existed before is reachable from its fields |
| `SamDefaults.CutInRegionConforms` | src/app/SAM.ts:839-847 | the field map `new CutInRegion()` stores has the key set of `CutInRegion.input_type` and every value fits its descriptor: union fields `undefined`, numbers `null`, strings `''`, flags `false`, nodes of the named class, lists of one node |
| `SamDefaults.CutInRegionKeys` | src/app/SAM.ts:839-847 | `CutInRegion.input_type` describes exactly the keys `gamma`, `electron`, `positron`, `proton`, `max_step` that `new CutInRegion()` stores; every other key gives `undefined` |
| `SamDefaults.CutInRegionFieldsFit` | src/app/SAM.ts:831-837 | each value `new CutInRegion()` stores fits the descriptor `CutInRegion.input_type` gives its key |
| `SamUnionSlots.CutInRegionUnionFields` | src/app/SAM.ts:839-847 | `CutInRegion.input_type` describes no tagged-union field |
| `SamUnionSlots.CutInRegionUnionSlots` | src/app/SAM.ts:839-847 | `UnionSlots` lists exactly the union fields of `CutInRegion` |
| `SamInputType.InputTypeOfProcess` | src/app/SAM.ts:863-870 | `input_type(key)` on a `Process` node is the switch of `Process.input_type` |
| `SamInputType.ProcessInputType` | src/app/SAM.ts:863-870 | the switch of `Process.input_type` as a table: the descriptor of each key it has a case for, `None` (`undefined`) for every other key |
| `SamDefaults.NewProcess` | src/app/SAM.ts:856-861 | `new Process()` is a fresh node holding `add` false, `process_name` `''`, `particle` `''`, `model` a new Model, the keys `Process.input_type` describes; the fields are `ProcessFields` of the nodes it builds, and each of those nodes is new, is the default of its own class, is not the node itself and is held at one place only (`DefaultNode`) |
| `SamDefaults.ProcessFields` | src/app/SAM.ts:856-861 | the field map `new Process()` stores, key by key as the constructor writes it, given the nodes it builds for `model` |
| `SamDefaults.ProcessUnshared` | src/app/SAM.ts:856-861 | no node the fields of `new Process()` hold is held by two fields or twice in one list |
| `SamDefaults.ProcessDefault` | src/app/SAM.ts:856-861 | a `Process` node holding `ProcessFields` of a node that is the default of its class and not the node is what `new Process()` builds: its fields conform to `Process.input_type`, and its child nodes are defaults of their own classes, held at one place only |
| `SamDefaults.ProcessFresh` | src/app/SAM.ts:856-861 | `new Process()` allocates everything it stores: the node it returns and the nodes it builds for `ProcessFields` are all new, so no node that existed before is reachable from its fields |
| `SamDefaults.ProcessConforms` | src/app/SAM.ts:863-870 | the field map `new Process()` stores has the key set of `Process.input_type` and every value fits its descriptor: union fields `undefined`, numbers `null`, strings `''`, flags `false`, nodes of the named class, lists of one node |
| `SamDefaults.ProcessKeys` | src/app/SAM.ts:863-870 | `Process.input_type` describes exactly the keys `add`, `process_name`, `particle`, `model` that `new Process()` stores; every other key gives `undefined` |
| `SamDefaults.ProcessFieldsFit` | src/app/SAM.ts:856-861 | each value `new Process()` stores fits the descriptor `Process.input_type` gives its key |
| `SamUnionSlots.ProcessUnionFields` | src/app/SAM.ts:863-870 | `Process.input_type` describes no tagged-union field |
| `SamUnionSlots.ProcessUnionSlots` | src/app/SAM.ts:863-870 | `UnionSlots` lists exactly the union fields of `Process` |
| `SamInputType.InputTypeOfModel` | src/app/SAM.ts:890-899 | `input_type(key)` on a `Model` node is the switch of `Model.input_type` |
| `SamInputType.ModelInputType` | src/app/SAM.ts:890-899 | the switch of `Model.input_type` as a table: the descriptor of each key it has a case for, `None` (`undefined`) for every other key |
| `SamDefaults.NewModel` | src/app/SAM.ts:881-888 | `new Model()` is a fresh node holding `set` false, `model_name` `''`, `particle` `''`, `energy_range` false, `e_max` a new SetE, `e_min` a new SetE, the keys `Model.input_type` describes; the fields are `ModelFields` of the nodes it builds, and each of those nodes is new, is the default of its own class, is not the node itself and is held at one place only (`DefaultNode`) |
| `SamDefaults.ModelFields` | src/app/SAM.ts:881-888 | the field map `new Model()` stores, key by key as the constructor writes it, given the nodes it builds for `e_max`, `e_min` |
| `SamDefaults.ModelUnshared` | src/app/SAM.ts:881-888 | no node the fields of `new Model()` hold is held by two fields or twice in one list |
| `SamDefaults.ModelDefault` | src/app/SAM.ts:881-888 | a `Model` node holding `ModelFields` of nodes each the default of its class, not the node and distinct from one another is what `new Model()` builds: its fields conform to `Model.input_type`, and its child nodes are defaults of their own classes, held at one place only |
| `SamDefaults.ModelFresh` | src/app/SAM.ts:881-888 | `new Model()` allocates everything it stores: the node it returns and the nodes it builds for `ModelFields` are all new, so no node that existed before is reachable from its fields |
| `SamDefaults.ModelConforms` | src/app/SAM.ts:890-899 | the field map `new Model()` stores has the key set of `Model.input_type` and every value fits its descriptor: union fields `undefined`, numbers `null`, strings `''`, flags `false`, nodes of the named class, lists of one node |
| `SamDefaults.ModelKeys` | src/app/SAM.ts:890-899 | `Model.input_type` describes exactly the keys `set`, `model_name`, `particle`, `energy_range`, `e_max`, `e_min` that `new Model()` stores; every other key gives `undefined` |
| `SamDefaults.ModelFieldsFit` | src/app/SAM.ts:881-888 | each value `new Model()` stores fits the descriptor `Model.input_type` gives its key |
| `SamUnionSlots.ModelUnionFields` | src/app/SAM.ts:890-899 | `Model.input_type` describes no tagged-union field |
| `SamUnionSlots.ModelUnionSlots` | src/app/SAM.ts:890-899 | `UnionSlots` lists exactly the union fields of `Model` |
| `SamInputType.InputTypeOfSetE` | src/app/SAM.ts:913-919 | `input_type(key)` on a `SetE` node is the switch of `SetE.input_type` |
| `SamInputType.SetEInputType` | src/app/SAM.ts:913-919 | the switch of `SetE.input_type` as a table: the descriptor of each key it has a case for, `None` (`undefined`) for every other key |
| `SamDefaults.NewSetE` | src/app/SAM.ts:907-911 | `new SetE()` is a fresh node holding `value` a new Value, `particle` `''`, `option` `''`, the keys `SetE.input_type` describes; the fields are `SetEFields` of the nodes it builds, and each of those nodes is new, is the default of its own class, is not the node itself and is held at one place only (`DefaultNode`) |
| `SamDefaults.SetEFields` | src/app/SAM.ts:907-911 | the field map `new SetE()` stores, key by key as the constructor writes it, given the nodes it builds for `value` |
| `SamDefaults.SetEUnshared` | src/app/SAM.ts:907-911 | no node the fields of `new SetE()` hold is held by two fields or twice in one list |
| `SamDefaults.SetEDefault` | src/app/SAM.ts:907-911 | a `SetE` node holding `SetEFields` of a node that is the default of its class and not the node is what `new SetE()` builds: its fields conform to `SetE.input_type`, and its child nodes are defaults of their own classes, held at one place only |
| `SamDefaults.SetEFresh` | src/app/SAM.ts:907-911 | `new SetE()` allocates everything it stores: the node it returns and the nodes it builds for `SetEFields` are all new, so no node that existed before is reachable from its fields |
| `SamDefaults.SetEConforms` | src/app/SAM.ts:913-919 | the field map `new SetE()` stores has the key set of `SetE.input_type` and every value fits its descriptor: union fields `undefined`, numbers `null`, strings `''`, flags `false`, nodes of the named class, lists of one node |
| `SamDefaults.SetEKeys` | src/app/SAM.ts:913-919 | `SetE.input_type` describes exactly the keys `value`, `particle`, `option` that `new SetE()` stores; every other key gives `undefined` |
| `SamDefaults.SetEFieldsFit` | src/app/SAM.ts:907-911 | each value `new SetE()` stores fits the descriptor `SetE.input_type` gives its key |
| `SamUnionSlots.SetEUnionFields` | src/app/SAM.ts:913-919 | `SetE.input_type` describes no tagged-union field |
| `SamUnionSlots.SetEUnionSlots` | src/app/SAM.ts:913-919 | `UnionSlots` lists exactly the union fields of `SetE` |
| `SamInputType.InputTypeOfFlat` | src/app/SAM.ts:951-957 | `input_type(key)` on a `Flat` node is the switch of `Flat.input_type` |
| `SamInputType.FlatInputType` | src/app/SAM.ts:951-957 | the switch of `Flat.input_type` as a table: the descriptor of each key it has a case for, `None` (`undefined`) for every other key |
| `SamDefaults.NewFlat` | src/app/SAM.ts:944-949 | `new Flat()` is a fresh node holding `min` a new Value, `max` a new Value, `amplitude` a new Value, the keys `Flat.input_type` describes; the fields are `FlatFields` of the nodes it builds, and each of those nodes is new, is the default of its own class, is not the node itself and is held at one place only (`DefaultNode`) |
| `SamDefaults.FlatFields` | src/app/SAM.ts:944-949 | the field map `new Flat()` stores, key by key as the constructor writes it, given the nodes it builds for `min`, `max`, `amplitude` |
| `SamDefaults.FlatUnshared` | src/app/SAM.ts:944-949 | no node the fields of `new Flat()` hold is held by two fields or twice in one list |
| `SamDefaults.FlatDefault` | src/app/SAM.ts:944-949 | a `Flat` node holding `FlatFields` of nodes each the default of its class, not the node and distinct from one another is what `new Flat()` builds: its fields conform to `Flat.input_type`, and its child nodes are defaults of their own classes, held at one place only |
| `SamDefaults.FlatFresh` | src/app/SAM.ts:944-949 | `new Flat()` allocates everything it stores: the node it returns and the nodes it builds for `FlatFields` are all new, so no node that existed before is reachable from its fields |
| `SamDefaults.FlatConforms` | src/app/SAM.ts:951-957 | the field map `new Flat()` stores has the key set of `Flat.input_type` and every value fits its descriptor: union fields `undefined`, numbers `null`, strings `''`, flags `false`, nodes of the named class, lists of one node |
| `SamDefaults.FlatKeys` | src/app/SAM.ts:951-957 | `Flat.input_type` describes exactly the keys `min`, `max`, `amplitude` that `new Flat()` stores; every other key gives `undefined` |
| `SamDefaults.FlatFieldsFit` | src/app/SAM.ts:944-949 | each value `new Flat()` stores fits the descriptor `Flat.input_type` gives its key |
| `SamUnionSlots.FlatUnionFields` | src/app/SAM.ts:951-957 | `Flat.input_type` describes no tagged-union field |
| `SamUnionSlots.FlatUnionSlots` | src/app/SAM.ts:951-957 | `UnionSlots` lists exactly the union fields of `Flat` |
| `SamInputType.InputTypeOfGaussian` | src/app/SAM.ts:972-978 | `input_type(key)` on a `Gaussian` node is the switch of `Gaussian.input_type` |
| `SamInputType.GaussianInputType` | src/app/SAM.ts:972-978 | the switch of `Gaussian.input_type` as a table: the descriptor of each key it has a case for, `None` (`undefined`) for every other key |
| `SamDefaults.NewGaussian` | src/app/SAM.ts:965-970 | `new Gaussian()` is a fresh node holding `mean` a new Value, `sigma` a new Value, `amplitude` a new Value, the keys `Gaussian.input_type` describes; the fields are `GaussianFields` of the nodes it builds, and each of those nodes is new, is the default of its own class, is not the node itself and is held at one place only (`DefaultNode`) |
| `SamDefaults.GaussianFields` | src/app/SAM.ts:965-970 | the field map `new Gaussian()` stores, key by key as the constructor writes it, given the nodes it builds for `mean`, `sigma`, `amplitude` |
| `SamDefaults.GaussianUnshared` | src/app/SAM.ts:965-970 | no node the fields of `new Gaussian()` hold is held by two fields or twice in one list |
| `SamDefaults.GaussianDefault` | src/app/SAM.ts:965-970 | a `Gaussian` node holding `GaussianFields` of nodes each the default of its class, not the node and distinct from one another is what `new Gaussian()` builds: its fields conform to `Gaussian.input_type`, and its child nodes are defaults of their own classes, held at one place only |
| `SamDefaults.GaussianFresh` | src/app/SAM.ts:965-970 | `new Gaussian()` allocates everything it stores: the node it returns and the nodes it builds for `GaussianFields` are all new, so no node that existed before is reachable from its fields |
| `SamDefaults.GaussianConforms` | src/app/SAM.ts:972-978 | the field map `new Gaussian()` stores has the key set of `Gaussian.input_type` and every value fits its descriptor: union fields `undefined`, numbers `null`, strings `''`, flags `false`, nodes of the named class, lists of one node |
| `SamDefaults.GaussianKeys` | src/app/SAM.ts:972-978 | `Gaussian.input_type` describes exactly the keys `mean`, `sigma`, `amplitude` that `new Gaussian()` stores; every other key gives `undefined` |
| `SamDefaults.GaussianFieldsFit` | src/app/SAM.ts:965-970 | each value `new Gaussian()` stores fits the descriptor `Gaussian.input_type` gives its key |
| `SamUnionSlots.GaussianUnionFields` | src/app/SAM.ts:972-978 | `Gaussian.input_type` describes no tagged-union field |
| `SamUnionSlots.GaussianUnionSlots` | src/app/SAM.ts:972-978 | `UnionSlots` lists exactly the union fields of `Gaussian` |
| `SamInputType.InputTypeOfExponential` | src/app/SAM.ts:991-996 | `input_type(key)` on a `Exponential` node is the switch of `Exponential.input_type` |
| `SamInputType.ExponentialInputType` | src/app/SAM.ts:991-996 | the switch of `Exponential.input_type` as a table: the descriptor of each key it has a case for, `None` (`undefined`) for every other key |
| `SamDefaults.NewExponential` | src/app/SAM.ts:985-989 | `new Exponential()` is a fresh node holding `lambda` null, `amplitude` a new Value, the keys `Exponential.input_type` describes; the fields are `ExponentialFields` of the nodes it builds, and each of those nodes is new, is the default of its own class, is not the node itself and is held at one place only (`DefaultNode`) |
| `SamDefaults.ExponentialFields` | src/app/SAM.ts:985-989 | the field map `new Exponential()` stores, key by key as the constructor writes it, given the nodes it builds for `amplitude` |
| `SamDefaults.ExponentialUnshared` | src/app/SAM.ts:985-989 | no node the fields of `new Exponential()` hold is held by two fields or twice in one list |
| `SamDefaults.ExponentialDefault` | src/app/SAM.ts:985-989 | a `Exponential` node holding `ExponentialFields` of a node that is the default of its class and not the node is what `new Exponential()` builds: its fields conform to `Exponential.input_type`, and its child nodes are defaults of their own classes, held at one place only |
| `SamDefaults.ExponentialFresh` | src/app/SAM.ts:985-989 | `new Exponential()` allocates everything it stores: the node it returns and the nodes it builds for `ExponentialFields` are all new, so no node that existed before is reachable from its fields |
| `SamDefaults.ExponentialConforms` | src/app/SAM.ts:991-996 | the field map `new Exponential()` stores has the key set of `Exponential.input_type` and every value fits its descriptor: union fields `undefined`, numbers `null`, strings `''`, flags `false`, nodes of the named class, lists of one node |
| `SamUnionSlots.ExponentialUnionFields` | src/app/SAM.ts:991-996 | `Exponential.input_type` describes no tagged-union field |
| `SamUnionSlots.ExponentialUnionSlots` | src/app/SAM.ts:991-996 | `UnionSlots` lists exactly the union fields of `Exponential` |
| `SamInputType.InputTypeOfManual` | src/app/SAM.ts:1015-1023 | `input_type(key)` on a `Manual` node is the switch of `Manual.input_type` |
| `SamInputType.ManualInputType` | src/app/SAM.ts:1015-1023 | the switch of `Manual.input_type` as a table: the descriptor of each key it has a case for, `None` (`undefined`) for every other key |
| `SamDefaults.NewManual` | src/app/SAM.ts:1006-1013 | `new Manual()` is a fresh node holding `unit_x` `''`, `unit_y` `''`, `insert_point` [null, null], `add_point` null, `auto_x_start` null, the keys `Manual.input_type` describes; the fields are `ManualFields()` and hold no node (`DefaultNode`) |
| `SamDefaults.ManualFields` | src/app/SAM.ts:1006-1013 | the field map `new Manual()` stores, key by key as the constructor writes it, holding no node |
| `SamDefaults.ManualChildren` | src/app/SAM.ts:1006-1013 | the fields of `new Manual()` hold no node, so none is shared |
| `SamDefaults.ManualDefault` | src/app/SAM.ts:1006-1013 | a `Manual` node holding `ManualFields` of no nodes is what `new Manual()` builds: its fields conform to `Manual.input_type` |
| `SamDefaults.ManualConforms` | src/app/SAM.ts:1015-1023 | the field map `new Manual()` stores has the key set of `Manual.input_type` and every value fits its descriptor: union fields `undefined`, numbers `null`, strings `''`, flags `false`, nodes of the named class, lists of one node |
| `SamDefaults.ManualKeys` | src/app/SAM.ts:1015-1023 | `Manual.input_type` describes exactly the keys `unit_x`, `unit_y`, `insert_point`, `add_point`, `auto_x_start` that `new Manual()` stores; every other key gives `undefined` |
| `SamDefaults.ManualFieldsFit` | src/app/SAM.ts:1006-1013 | each value `new Manual()` stores fits the descriptor `Manual.input_type` gives its key |
| `SamUnionSlots.ManualUnionFields` | src/app/SAM.ts:1015-1023 | `Manual.input_type` describes no tagged-union field |
| `SamUnionSlots.ManualUnionSlots` | src/app/SAM.ts:1015-1023 | `UnionSlots` lists exactly the union fields of `Manual` |
| `SamInputType.InputTypeOfFile` | src/app/SAM.ts:1046-1056 | `input_type(key)` on a `File` node is the switch of `File.input_type` |
| `SamInputType.FileInputType` | src/app/SAM.ts:1046-1056 | the switch of `File.input_type` as a table: the descriptor of each key it has a case for, `None` (`undefined`) for every other key |
| `SamDefaults.NewFile` | src/app/SAM.ts:1035-1044 | `new File()` is a fresh node holding `unit_x` `''`, `unit_y` `''`, `auto_x` false, `auto_x_start` a new Value, `file_name` `''`, `column_x` null, `column_y` null, the keys `File.input_type` describes; the fields are `FileFields` of the nodes it builds, and each of those nodes is new, is the default of its own class, is not the node itself and is held at one place only (`DefaultNode`) |
| `SamDefaults.FileFields` | src/app/SAM.ts:1035-1044 | the field map `new File()` stores, key by key as the constructor writes it, given the nodes it builds for `auto_x_start` |
| `SamDefaults.FileUnshared` | src/app/SAM.ts:1035-1044 | no node the fields of `new File()` hold is held by two fields or twice in one list |
| `SamDefaults.FileDefault` | src/app/SAM.ts:1035-1044 | a `File` node holding `FileFields` of a node that is the default of its class and not the node is what `new File()` builds: its fields conform to `File.input_type`, and its child nodes are defaults of their own classes, held at one place only |
| `SamDefaults.FileFresh` | src/app/SAM.ts:1035-1044 | `new File()` allocates everything it stores: the node it returns and the nodes it builds for `FileFields` are all new, so no node that existed before is reachable from its fields |
| `SamDefaults.FileConforms` | src/app/SAM.ts:1046-1056 | the field map `new File()` stores has the key set of `File.input_type` and every value fits its descriptor: union fields `undefined`, numbers `null`, strings `''`, flags `false`, nodes of the named class, lists of one node |
| `SamDefaults.FileKeys` | src/app/SAM.ts:1046-1056 | `File.input_type` describes exactly the keys `unit_x`, `unit_y`, `auto_x`, `auto_x_start`, `file_name`, `column_x`, `column_y` that `new File()` stores; every other key gives `undefined` |
| `SamDefaults.FileFieldsFit` | src/app/SAM.ts:1035-1044 | each value `new File()` stores fits the descriptor `File.input_type` gives its key |
| `SamUnionSlots.FileUnionFields` | src/app/SAM.ts:1046-1056 | `File.input_type` describes no tagged-union field |
| `SamUnionSlots.FileUnionSlots` | src/app/SAM.ts:1046-1056 | `UnionSlots` lists exactly the union fields of `File` |
| `SamInputType.InputTypeOfDigitizer` | src/app/SAM.ts:1100-1120 | `input_type(key)` on a `Digitizer` node is the switch of `Digitizer.input_type` |
| `SamInputType.DigitizerInputType` | src/app/SAM.ts:1100-1120 | the switch of `Digitizer.input_type` as a table: the descriptor of each key it has a case for, `None` (`undefined`) for every other key |
| `SamDefaults.NewDigitizer` | src/app/SAM.ts:1080-1098 | `new Digitizer()` is a fresh node holding `adder` a new Adder, `readout` a new Readout, `blurring` a new Blurring, `calibration` a new Calibration, `crosstalk` a new Crosstalk, `thresholder` a new Thresholder, `upholder` a new Upholder, `window` [a new Window], `sigmoidal_thresholder` a new SigmoidalThresholder, `time_resolution` a new TimeResolution, `noise` a new Noise, `local_efficiency` a new LocalEfficiency, `buffer` a new Buffer, `pileup` a new Pileup, `deadtime` a new DeadTime, `coincidences` a new Coincidences, `coincidence_sorter` a new CoincidenceSorter, the keys `Digitizer.input_type` describes; the fields are `DigitizerFields` of the nodes it builds, and each of those nodes is new, is the default of its own class, is not the node itself and is held at one place only (`DefaultNode`) |
| `SamDefaults.DigitizerFields` | src/app/SAM.ts:1080-1098 | the field map `new Digitizer()` stores, key by key as the constructor writes it, given the nodes it builds for `adder`, `readout`, `blurring`, `calibration`, `crosstalk`, `thresholder`, `upholder`, `window`, `sigmoidal_thresholder`, `time_resolution`, `noise`, `local_efficiency`, `buffer`, `pileup`, `deadtime`, `coincidences`, `coincidence_sorter` |
| `SamDefaults.DigitizerUnshared` | src/app/SAM.ts:1080-1098 | no node the fields of `new Digitizer()` hold is held by two fields or twice in one list |
| `SamDefaults.DigitizerDefault` | src/app/SAM.ts:1080-1098 | a `Digitizer` node holding `DigitizerFields` of nodes each the default of its class, not the node and distinct from one another is what `new Digitizer()` builds: its fields conform to `Digitizer.input_type`, and its child nodes are defaults of their own classes, held at one place only |
| `SamDefaults.DigitizerFresh` | src/app/SAM.ts:1080-1098 | `new Digitizer()` allocates everything it stores: the node it returns and the nodes it builds for `DigitizerFields` are all new, so no node that existed before is reachable from its fields |
| `SamDefaults.DigitizerConforms` | src/app/SAM.ts:1100-1120 | the field map `new Digitizer()` stores has the key set of `Digitizer.input_type` and every value fits its descriptor: union fields `undefined`, numbers `null`, strings `''`, flags `false`, nodes of the named class, lists of one node |
| `SamDefaults.DigitizerKeys` | src/app/SAM.ts:1100-1120 | `Digitizer.input_type` describes exactly the keys `adder`, `readout`, `blurring`, `calibration`, `crosstalk`, `thresholder`, `upholder`, `window`, `sigmoidal_thresholder`, `time_resolution`, `noise`, `local_efficiency`, `buffer`, `pileup`, `deadtime`, `coincidences`, `coincidence_sorter` that `new Digitizer()` stores; every other key gives `undefined` |
| `SamDefaults.DigitizerFieldsFit` | src/app/SAM.ts:1080-1098 | each value `new Digitizer()` stores fits the descriptor `Digitizer.input_type` gives its key |
| `SamDefaults.DigitizerFieldsFit1` | src/app/SAM.ts:1080-1098 | the values `new Digitizer()` stores in `adder`, `readout`, `blurring` fit their descriptors |
| `SamDefaults.DigitizerFieldsFit2` | src/app/SAM.ts:1080-1098 | the values `new Digitizer()` stores in `calibration`, `crosstalk`, `thresholder` fit their descriptors |
| `SamDefaults.DigitizerFieldsFit3` | src/app/SAM.ts:1080-1098 | the values `new Digitizer()` stores in `upholder`, `window`, `sigmoidal_thresholder` fit their descriptors |
| `SamDefaults.DigitizerFieldsFit4` | src/app/SAM.ts:1080-1098 | the values `new Digitizer()` stores in `time_resolution`, `noise`, `local_efficiency` fit their descriptors |
| `SamDefaults.DigitizerFieldsFit5` | src/app/SAM.ts:1080-1098 | the values `new Digitizer()` stores in `buffer`, `pileup`, `deadtime` fit their descriptors |
| `SamDefaults.DigitizerFieldsFit6` | src/app/SAM.ts:1080-1098 | the values `new Digitizer()` stores in `coincidences`, `coincidence_sorter` fit their descriptors |
| `SamUnionSlots.DigitizerUnionFields` | src/app/SAM.ts:1100-1120 | `Digitizer.input_type` describes no tagged-union field |
| `SamUnionSlots.DigitizerUnionSlots` | src/app/SAM.ts:1100-1120 | `UnionSlots` lists exactly the union fields of `Digitizer` |
| `SamInputType.InputTypeOfAdder` | src/app/SAM.ts:1134-1139 | `input_type(key)` on a `Adder` node is the switch of `Adder.input_type` |
| `SamInputType.AdderInputType` | src/app/SAM.ts:1134-1139 | the switch of `Adder.input_type` as a table: the descriptor of each key it has a case for, `None` (`undefined`) for every other key |
| `SamDefaults.NewAdder` | src/app/SAM.ts:1129-1132 | `new Adder()` is a fresh node holding `insert` true, `adder_compton` false, the keys `Adder.input_type` describes; the fields are `AdderFields()` and hold no node (`DefaultNode`) |
| `SamDefaults.AdderFields` | src/app/SAM.ts:1129-1132 | the field map `new Adder()` stores, key by key as the constructor writes it, holding no node |
| `SamDefaults.AdderChildren` | src/app/SAM.ts:1129-1132 | the fields of `new Adder()` hold no node, so none is shared |
| `SamDefaults.AdderDefault` | src/app/SAM.ts:1129-1132 | a `Adder` node holding `AdderFields` of no nodes is what `new Adder()` builds: its fields conform to `Adder.input_type` |
| `SamDefaults.AdderConforms` | src/app/SAM.ts:1134-1139 | the field map `new Adder()` stores has the key set of `Adder.input_type` and every value fits its descriptor: union fields `undefined`, numbers `null`, strings `''`, flags `false`, nodes of the named class, lists of one node |
| `SamUnionSlots.AdderUnionFields` | src/app/SAM.ts:1134-1139 | `Adder.input_type` describes no tagged-union field |
| `SamUnionSlots.AdderUnionSlots` | src/app/SAM.ts:1134-1139 | `UnionSlots` lists exactly the union fields of `Adder` |
| `SamInputType.InputTypeOfReadout` | src/app/SAM.ts:1153-1159 | `input_type(key)` on a `Readout` node is the switch of `Readout.input_type` |
| `SamInputType.ReadoutInputType` | src/app/SAM.ts:1153-1159 | the switch of `Readout.input_type` as a table: the descriptor of each key it has a case for, `None` (`undefined`) for every other key |
| `SamDefaults.NewReadout` | src/app/SAM.ts:1147-1151 | `new Readout()` is a fresh node holding `insert` true, `policy` `''`, `depth` null, the keys `Readout.input_type` describes; the fields are `ReadoutFields()` and hold no node (`DefaultNode`) |
| `SamDefaults.ReadoutFields` | src/app/SAM.ts:1147-1151 | the field map `new Readout()` stores, key by key as the constructor writes it, holding no node |
| `SamDefaults.ReadoutChildren` | src/app/SAM.ts:1147-1151 | the fields of `new Readout()` hold no node, so none is shared |
| `SamDefaults.ReadoutDefault` | src/app/SAM.ts:1147-1151 | a `Readout` node holding `ReadoutFields` of no nodes is what `new Readout()` builds: its fields conform to `Readout.input_type` |
| `SamDefaults.ReadoutConforms` | src/app/SAM.ts:1153-1159 | the field map `new Readout()` stores has the key set of `Readout.input_type` and every value fits its descriptor: union fields `undefined`, numbers `null`, strings `''`, flags `false`, nodes of the named class, lists of one node |
| `SamDefaults.ReadoutKeys` | src/app/SAM.ts:1153-1159 | `Readout.input_type` describes exactly the keys `insert`, `policy`, `depth` that `new Readout()` stores; every other key gives `undefined` |
| `SamDefaults.ReadoutFieldsFit` | src/app/SAM.ts:1147-1151 | each value `new Readout()` stores fits the descriptor `Readout.input_type` gives its key |
| `SamUnionSlots.ReadoutUnionFields` | src/app/SAM.ts:1153-1159 | `Readout.input_type` describes no tagged-union field |
| `SamUnionSlots.ReadoutUnionSlots` | src/app/SAM.ts:1153-1159 | `UnionSlots` lists exactly the union fields of `Readout` |
| `SamInputType.InputTypeOfBlurring` | src/app/SAM.ts:1185-1197 | `input_type(key)` on a `Blurring` node is the switch of `Blurring.input_type` |
| `SamInputType.BlurringInputType` | src/app/SAM.ts:1185-1197 | the switch of `Blurring.input_type` as a table: the descriptor of each key it has a case for, `None` (`undefined`) for every other key |
| `SamDefaults.NewBlurring` | src/app/SAM.ts:1173-1183 | `new Blurring()` is a fresh node holding `insert` false, `law` undefined, `crystal_blurring` a new CrystalBlurring, `local_blurring` [a new LocalBlurring], `transfer_efficiency` [a new TransferEfficiency], `light_yield` [a new LightYield], `intrinsic_resolution_blurring` [a new IntrinsicResolutionBlurring], `quantum_efficiency` [a new QuantumEfficiency], `spblurring` a new Spblurring, the keys `Blurring.input_type` describes; the fields are `BlurringFields` of the nodes it builds, and each of those nodes is new, is the default of its own class, is not the node itself and is held at one place only (`DefaultNode`) |
| `SamDefaults.BlurringFields` | src/app/SAM.ts:1173-1183 | the field map `new Blurring()` stores, key by key as the constructor writes it, given the nodes it builds for `crystal_blurring`, `local_blurring`, `transfer_efficiency`, `light_yield`, `intrinsic_resolution_blurring`, `quantum_efficiency`, `spblurring` |
| `SamDefaults.BlurringUnshared` | src/app/SAM.ts:1173-1183 | no node the fields of `new Blurring()` hold is held by two fields or twice in one list |
| `SamDefaults.BlurringDefault` | src/app/SAM.ts:1173-1183 | a `Blurring` node holding `BlurringFields` of nodes each the default of its class, not the node and distinct from one another is what `new Blurring()` builds: its fields conform to `Blurring.input_type`, and its child nodes are defaults of their own classes, held at one place only |
| `SamDefaults.BlurringFresh` | src/app/SAM.ts:1173-1183 | `new Blurring()` allocates everything it stores: the node it returns and the nodes it builds for `BlurringFields` are all new, so no node that existed before is reachable from its fields |
| `SamDefaults.BlurringConforms` | src/app/SAM.ts:1185-1197 | the field map `new Blurring()` stores has the key set of `Blurring.input_type` and every value fits its descriptor: union fields `undefined`, numbers `null`, strings `''`, flags `false`, nodes of the named class, lists of one node |
| `SamDefaults.BlurringKeys` | src/app/SAM.ts:1185-1197 | `Blurring.input_type` describes exactly the keys `insert`, `law`, `crystal_blurring`, `local_blurring`, `transfer_efficiency`, `light_yield`, `intrinsic_resolution_blurring`, `quantum_efficiency`, `spblurring` that `new Blurring()` stores; every other key gives `undefined` |
| `SamDefaults.BlurringFieldsFit` | src/app/SAM.ts:1173-1183 | each value `new Blurring()` stores fits the descriptor `Blurring.input_type` gives its key |
| `SamUnionSlots.BlurringUnionFields` | src/app/SAM.ts:1185-1197 | the tagged-union fields of `Blurring` are exactly `law` |
| `SamUnionSlots.BlurringUnionSlots` | src/app/SAM.ts:1185-1197 | `UnionSlots` lists exactly the union fields of `Blurring` |
| `SamInputType.InputTypeOfInverseSquareLaw` | src/app/SAM.ts:1226-1231 | `input_type(key)` on a `InverseSquareLaw` node is the switch of `InverseSquareLaw.input_type` |
| `SamInputType.InverseSquareLawInputType` | src/app/SAM.ts:1226-1231 | the switch of `InverseSquareLaw.input_type` as a table: the descriptor of each key it has a case for, `None` (`undefined`) for every other key |
| `SamDefaults.NewInverseSquareLaw` | src/app/SAM.ts:1220-1224 | `new InverseSquareLaw()` is a fresh node holding `resolution` null, `energy_of_reference` a new Value, the keys `InverseSquareLaw.input_type` describes; the fields are `InverseSquareLawFields` of the nodes it builds, and each of those nodes is new, is the default of its own class, is not the node itself and is held at one place only (`DefaultNode`) |
| `SamDefaults.InverseSquareLawFields` | src/app/SAM.ts:1220-1224 | the field map `new InverseSquareLaw()` stores, key by key as the constructor writes it, given the nodes it builds for `energy_of_reference` |
| `SamDefaults.InverseSquareLawUnshared` | src/app/SAM.ts:1220-1224 | no node the fields of `new InverseSquareLaw()` hold is held by two fields or twice in one list |
| `SamDefaults.InverseSquareLawDefault` | src/app/SAM.ts:1220-1224 | a `InverseSquareLaw` node holding `InverseSquareLawFields` of a node that is the default of its class and not the node is what `new InverseSquareLaw()` builds: its fields conform to `InverseSquareLaw.input_type`, and its child nodes are defaults of their own classes, held at one place only |
| `SamDefaults.InverseSquareLawFresh` | src/app/SAM.ts:1220-1224 | `new InverseSquareLaw()` allocates everything it stores: the node it returns and the nodes it builds for `InverseSquareLawFields` are all new, so no node that existed before is reachable from its fields |
| `SamDefaults.InverseSquareLawConforms` | src/app/SAM.ts:1226-1231 | the field map `new InverseSquareLaw()` stores has the key set of `InverseSquareLaw.input_type` and every value fits its descriptor: union fields `undefined`, numbers `null`, strings `''`, flags `false`, nodes of the named class, lists of one node |
| `SamUnionSlots.InverseSquareLawUnionFields` | src/app/SAM.ts:1226-1231 | `InverseSquareLaw.input_type` describes no tagged-union field |
| `SamUnionSlots.InverseSquareLawUnionSlots` | src/app/SAM.ts:1226-1231 | `UnionSlots` lists exactly the union fields of `InverseSquareLaw` |
| `SamInputType.InputTypeOfLinearLaw` | src/app/SAM.ts:1246-1252 | `input_type(key)` on a `LinearLaw` node is the switch of `LinearLaw.input_type` |
| `SamInputType.LinearLawInputType` | src/app/SAM.ts:1246-1252 | the switch of `LinearLaw.input_type` as a table: the descriptor of each key it has a case for, `None` (`undefined`) for every other key |
| `SamDefaults.NewLinearLaw` | src/app/SAM.ts:1239-1244 | `new LinearLaw()` is a fresh node holding `resolution` null, `energy_of_reference` a new Value, `slope` a new Value, the keys `LinearLaw.input_type` describes; the fields are `LinearLawFields` of the nodes it builds, and each of those nodes is new, is the default of its own class, is not the node itself and is held at one place only (`DefaultNode`) |
| `SamDefaults.LinearLawFields` | src/app/SAM.ts:1239-1244 | the field map `new LinearLaw()` stores, key by key as the constructor writes it, given the nodes it builds for `energy_of_reference`, `slope` |
| `SamDefaults.LinearLawUnshared` | src/app/SAM.ts:1239-1244 | no node the fields of `new LinearLaw()` hold is held by two fields or twice in one list |
| `SamDefaults.LinearLawDefault` | src/app/SAM.ts:1239-1244 | a `LinearLaw` node holding `LinearLawFields` of nodes each the default of its class, not the node and distinct from one another is what `new LinearLaw()` builds: its fields conform to `LinearLaw.input_type`, and its child nodes are defaults of their own classes, held at one place only |
| `SamDefaults.LinearLawFresh` | src/app/SAM.ts:1239-1244 | `new LinearLaw()` allocates everything it stores: the node it returns and the nodes it builds for `LinearLawFields` are all new, so no node that existed before is reachable from its fields |
| `SamDefaults.LinearLawConforms` | src/app/SAM.ts:1246-1252 | the field map `new LinearLaw()` stores has the key set of `LinearLaw.input_type` and every value fits its descriptor: union fields `undefined`, numbers `null`, strings `''`, flags `false`, nodes of the named class, lists of one node |
| `SamDefaults.LinearLawKeys` | src/app/SAM.ts:1246-1252 | `LinearLaw.input_type` describes exactly the keys `resolution`, `energy_of_reference`, `slope` that `new LinearLaw()` stores; every other key gives `undefined` |
| `SamDefaults.LinearLawFieldsFit` | src/app/SAM.ts:1239-1244 | each value `new LinearLaw()` stores fits the descriptor `LinearLaw.input_type` gives its key |
| `SamUnionSlots.LinearLawUnionFields` | src/app/SAM.ts:1246-1252 | `LinearLaw.input_type` describes no tagged-union field |
| `SamUnionSlots.LinearLawUnionSlots` | src/app/SAM.ts:1246-1252 | `UnionSlots` lists exactly the union fields of `LinearLaw` |
| `SamInputType.InputTypeOfCrystalBlurring` | src/app/SAM.ts:1270-1278 | `input_type(key)` on a `CrystalBlurring` node is the switch of `CrystalBlurring.input_type` |
| `SamInputType.CrystalBlurringInputType` | src/app/SAM.ts:1270-1278 | the switch of `CrystalBlurring.input_type` as a table: the descriptor of each key it has a case for, `None` (`undefined`) for every other key |
| `SamDefaults.NewCrystalBlurring` | src/app/SAM.ts:1262-1268 | `new CrystalBlurring()` is a fresh node holding `insert` false, `crystal_resolution_min` null, `crystal_resolution_max` null, `crystal_qe` null, `crystal_energy_of_reference` a new Value, the keys `CrystalBlurring.input_type` describes; the fields are `CrystalBlurringFields` of the nodes it builds, and each of those nodes is new, is the default of its own class, is not the node itself and is held at one place only (`DefaultNode`) |
| `SamDefaults.CrystalBlurringFields` | src/app/SAM.ts:1262-1268 | the field map `new CrystalBlurring()` stores, key by key as the constructor writes it, given the nodes it builds for `crystal_energy_of_reference` |
| `SamDefaults.CrystalBlurringUnshared` | src/app/SAM.ts:1262-1268 | no node the fields of `new CrystalBlurring()` hold is held by two fields or twice in one list |
| `SamDefaults.CrystalBlurringDefault` | src/app/SAM.ts:1262-1268 | a `CrystalBlurring` node holding `CrystalBlurringFields` of a node that is the default of its class and not the node is what `new CrystalBlurring()` builds: its fields conform to `CrystalBlurring.input_type`, and its child nodes are defaults of their own classes, held at one place only |
| `SamDefaults.CrystalBlurringFresh` | src/app/SAM.ts:1262-1268 | `new CrystalBlurring()` allocates everything it stores: the node it returns and the nodes it builds for `CrystalBlurringFields` are all new, so no node that existed before is reachable from its fields |
| `SamDefaults.CrystalBlurringConforms` | src/app/SAM.ts:1270-1278 | the field map `new CrystalBlurring()` stores has the key set of `CrystalBlurring.input_type` and every value fits its descriptor: union fields `undefined`, numbers `null`, strings `''`, flags `false`, nodes of the named class, lists of one node |
| `SamDefaults.CrystalBlurringKeys` | src/app/SAM.ts:1270-1278 | `CrystalBlurring.input_type` describes exactly the keys `insert`, `crystal_resolution_min`, `crystal_resolution_max`, `crystal_qe`, `crystal_energy_of_reference` that `new CrystalBlurring()` stores; every other key gives `undefined` |
| `SamDefaults.CrystalBlurringFieldsFit` | src/app/SAM.ts:1262-1268 | each value `new CrystalBlurring()` stores fits the descriptor `CrystalBlurring.input_type` gives its key |
| `SamUnionSlots.CrystalBlurringUnionFields` | src/app/SAM.ts:1270-1278 | `CrystalBlurring.input_type` describes no tagged-union field |
| `SamUnionSlots.CrystalBlurringUnionSlots` | src/app/SAM.ts:1270-1278 | `UnionSlots` lists exactly the union fields of `CrystalBlurring` |
| `SamInputType.InputTypeOfLocalBlurring` | src/app/SAM.ts:1294-1301 | `input_type(key)` on a `LocalBlurring` node is the switch of `LocalBlurring.input_type` |
| `SamInputType.LocalBlurringInputType` | src/app/SAM.ts:1294-1301 | the switch of `LocalBlurring.input_type` as a table: the descriptor of each key it has a case for, `None` (`undefined`) for every other key |
| `SamDefaults.NewLocalBlurring` | src/app/SAM.ts:1287-1292 | `new LocalBlurring()` is a fresh node holding `insert` false, `volume` `''`, `resolution` null, `energy_of_reference` a new Value, the keys `LocalBlurring.input_type` describes; the fields are `LocalBlurringFields` of the nodes it builds, and each of those nodes is new, is the default of its own class, is not the node itself and is held at one place only (`DefaultNode`) |
| `SamDefaults.LocalBlurringFields` | src/app/SAM.ts:1287-1292 | the field map `new LocalBlurring()` stores, key by key as the constructor writes it, given the nodes it builds for `energy_of_reference` |
| `SamDefaults.LocalBlurringUnshared` | src/app/SAM.ts:1287-1292 | no node the fields of `new LocalBlurring()` hold is held by two fields or twice in one list |
| `SamDefaults.LocalBlurringDefault` | src/app/SAM.ts:1287-1292 | a `LocalBlurring` node holding `LocalBlurringFields` of a node that is the default of its class and not the node is what `new LocalBlurring()` builds: its fields conform to `LocalBlurring.input_type`, and its child nodes are defaults of their own classes, held at one place only |
| `SamDefaults.LocalBlurringFresh` | src/app/SAM.ts:1287-1292 | `new LocalBlurring()` allocates everything it stores: the node it returns and the nodes it builds for `LocalBlurringFields` are all new, so no node that existed before is reachable from its fields |
| `SamDefaults.LocalBlurringConforms` | src/app/SAM.ts:1294-1301 | the field map `new LocalBlurring()` stores has the key set of `LocalBlurring.input_type` and every value fits its descriptor: union fields `undefined`, numbers `null`, strings `''`, flags `false`, nodes of the named class, lists of one node |
| `SamDefaults.LocalBlurringKeys` | src/app/SAM.ts:1294-1301 | `LocalBlurring.input_type` describes exactly the keys `insert`, `volume`, `resolution`, `energy_of_reference` that `new LocalBlurring()` stores; every other key gives `undefined` |
| `SamDefaults.LocalBlurringFieldsFit` | src/app/SAM.ts:1287-1292 | each value `new LocalBlurring()` stores fits the descriptor `LocalBlurring.input_type` gives its key |
| `SamUnionSlots.LocalBlurringUnionFields` | src/app/SAM.ts:1294-1301 | `LocalBlurring.input_type` describes no tagged-union field |
| `SamUnionSlots.LocalBlurringUnionSlots` | src/app/SAM.ts:1294-1301 | `UnionSlots` lists exactly the union fields of `LocalBlurring` |
| `SamInputType.InputTypeOfTransferEfficiency` | src/app/SAM.ts:1315-1321 | `input_type(key)` on a `TransferEfficiency` node is the switch of `TransferEfficiency.input_type` |
| `SamInputType.TransferEfficiencyInputType` | src/app/SAM.ts:1315-1321 | the switch of `TransferEfficiency.input_type` as a table: the descriptor of each key it has a case for, `None` (`undefined`) for every other key |
| `SamDefaults.NewTransferEfficiency` | src/app/SAM.ts:1309-1313 | `new TransferEfficiency()` is a fresh node holding `insert` false, `volume` `''`, `tecoef` null, the keys `TransferEfficiency.input_type` describes; the fields are `TransferEfficiencyFields()` and hold no node (`DefaultNode`) |
| `SamDefaults.TransferEfficiencyFields` | src/app/SAM.ts:1309-1313 | the field map `new TransferEfficiency()` stores, key by key as the constructor writes it, holding no node |
| `SamDefaults.TransferEfficiencyChildren` | src/app/SAM.ts:1309-1313 | the fields of `new TransferEfficiency()` hold no node, so none is shared |
| `SamDefaults.TransferEfficiencyDefault` | src/app/SAM.ts:1309-1313 | a `TransferEfficiency` node holding `TransferEfficiencyFields` of no nodes is what `new TransferEfficiency()` builds: its fields conform to `TransferEfficiency.input_type` |
| `SamDefaults.TransferEfficiencyConforms` | src/app/SAM.ts:1315-1321 | the field map `new TransferEfficiency()` stores has the key set of `TransferEfficiency.input_type` and every value fits its descriptor: union fields `undefined`, numbers `null`, strings `''`, flags `false`, nodes of the named class, lists of one node |
| `SamDefaults.TransferEfficiencyKeys` | src/app/SAM.ts:1315-1321 | `TransferEfficiency.input_type` describes exactly the keys `insert`, `volume`, `tecoef` that `new TransferEfficiency()` stores; every other key gives `undefined` |
| `SamDefaults.TransferEfficiencyFieldsFit` | src/app/SAM.ts:1309-1313 | each value `new TransferEfficiency()` stores fits the descriptor `TransferEfficiency.input_type` gives its key |
| `SamUnionSlots.TransferEfficiencyUnionFields` | src/app/SAM.ts:1315-1321 | `TransferEfficiency.input_type` describes no tagged-union field |
| `SamUnionSlots.TransferEfficiencyUnionSlots` | src/app/SAM.ts:1315-1321 | `UnionSlots` lists exactly the union fields of `TransferEfficiency` |
| `SamInputType.InputTypeOfLightYield` | src/app/SAM.ts:1335-1341 | `input_type(key)` on a `LightYield` node is the switch of `LightYield.input_type` |
| `SamInputType.LightYieldInputType` | src/app/SAM.ts:1335-1341 | the switch of `LightYield.input_type` as a table: the descriptor of each key it has a case for, `None` (`undefined`) for every other key |
| `SamDefaults.NewLightYield` | src/app/SAM.ts:1329-1333 | `new LightYield()` is a fresh node holding `insert` false, `volume` `''`, `light_output` null, the keys `LightYield.input_type` describes; the fields are `LightYieldFields()` and hold no node (`DefaultNode`) |
| `SamDefaults.LightYieldFields` | src/app/SAM.ts:1329-1333 | the field map `new LightYield()` stores, key by key as the constructor writes it, holding no node |
| `SamDefaults.LightYieldChildren` | src/app/SAM.ts:1329-1333 | the fields of `new LightYield()` hold no node, so none is shared |
| `SamDefaults.LightYieldDefault` | src/app/SAM.ts:1329-1333 | a `LightYield` node holding `LightYieldFields` of no nodes is what `new LightYield()` builds: its fields conform to `LightYield.input_type` |
| `SamDefaults.LightYieldConforms` | src/app/SAM.ts:1335-1341 | the field map `new LightYield()` stores has the key set of `LightYield.input_type` and every value fits its descriptor: union fields `undefined`, numbers `null`, strings `''`, flags `false`, nodes of the named class, lists of one node |
| `SamDefaults.LightYieldKeys` | src/app/SAM.ts:1335-1341 | `LightYield.input_type` describes exactly the keys `insert`, `volume`, `light_output` that `new LightYield()` stores; every other key gives `undefined` |
| `SamDefaults.LightYieldFieldsFit` | src/app/SAM.ts:1329-1333 | each value `new LightYield()` stores fits the descriptor `LightYield.input_type` gives its key |
| `SamUnionSlots.LightYieldUnionFields` | src/app/SAM.ts:1335-1341 | `LightYield.input_type` describes no tagged-union field |
| `SamUnionSlots.LightYieldUnionSlots` | src/app/SAM.ts:1335-1341 | `UnionSlots` lists exactly the union fields of `LightYield` |
| `SamInputType.InputTypeOfIntrinsicResolutionBlurring` | src/app/SAM.ts:1357-1364 | `input_type(key)` on a `IntrinsicResolutionBlurring` node is the switch of `IntrinsicResolutionBlurring.input_type` |
| `SamInputType.IntrinsicResolutionBlurringInputType` | src/app/SAM.ts:1357-1364 | the switch of `IntrinsicResolutionBlurring.input_type` as a table: the descriptor of each key it has a case for, `None` (`undefined`) for every other key |
| `SamDefaults.NewIntrinsicResolutionBlurring` | src/app/SAM.ts:1350-1355 | `new IntrinsicResolutionBlurring()` is a fresh node holding `insert` false, `volume` `''`, `intrinsic_resolution` null, `energy_of_reference` a new Value, the keys `IntrinsicResolutionBlurring.input_type` describes; the fields are `IntrinsicResolutionBlurringFields` of the nodes it builds, and each of those nodes is new, is the default of its own class, is not the node itself and is held at one place only (`DefaultNode`) |
| `SamDefaults.IntrinsicResolutionBlurringFields` | src/app/SAM.ts:1350-1355 | the field map `new IntrinsicResolutionBlurring()` stores, key by key as the constructor writes it, given the nodes it builds for `energy_of_reference` |
| `SamDefaults.IntrinsicResolutionBlurringUnshared` | src/app/SAM.ts:1350-1355 | no node the fields of `new IntrinsicResolutionBlurring()` hold is held by two fields or twice in one list |
| `SamDefaults.IntrinsicResolutionBlurringDefault` | src/app/SAM.ts:1350-1355 | a `IntrinsicResolutionBlurring` node holding `IntrinsicResolutionBlurringFields` of a node that is the default of its class and not the node is what `new IntrinsicResolutionBlurring()` builds: its fields conform to `IntrinsicResolutionBlurring.input_type`, and its child nodes are defaults of their own classes, held at one place only |
| `SamDefaults.IntrinsicResolutionBlurringFresh` | src/app/SAM.ts:1350-1355 | `new IntrinsicResolutionBlurring()` allocates everything it stores: the node it returns and the nodes it builds for `IntrinsicResolutionBlurringFields` are all new, so no node that existed before is reachable from its fields |
| `SamDefaults.IntrinsicResolutionBlurringConforms` | src/app/SAM.ts:1357-1364 | the field map `new IntrinsicResolutionBlurring()` stores has the key set of `IntrinsicResolutionBlurring.input_type` and every value fits its descriptor: union fields `undefined`, numbers `null`, strings `''`, flags `false`, nodes of the named class, lists of one node |
| `SamDefaults.IntrinsicResolutionBlurringKeys` | src/app/SAM.ts:1357-1364 | `IntrinsicResolutionBlurring.input_type` describes exactly the keys `insert`, `volume`, `intrinsic_resolution`, `energy_of_reference` that `new IntrinsicResolutionBlurring()` stores; every other key gives `undefined` |
| `SamDefaults.IntrinsicResolutionBlurringFieldsFit` | src/app/SAM.ts:1350-1355 | each value `new IntrinsicResolutionBlurring()` stores fits the descriptor `IntrinsicResolutionBlurring.input_type` gives its key |
| `SamUnionSlots.IntrinsicResolutionBlurringUnionFields` | src/app/SAM.ts:1357-1364 | `IntrinsicResolutionBlurring.input_type` describes no tagged-union field |
| `SamUnionSlots.IntrinsicResolutionBlurringUnionSlots` | src/app/SAM.ts:1357-1364 | `UnionSlots` lists exactly the union fields of `IntrinsicResolutionBlurring` |
| `SamInputType.InputTypeOfQuantumEfficiency` | src/app/SAM.ts:1378-1384 | `input_type(key)` on a `QuantumEfficiency` node is the switch of `QuantumEfficiency.input_type` |
| `SamInputType.QuantumEfficiencyInputType` | src/app/SAM.ts:1378-1384 | the switch of `QuantumEfficiency.input_type` as a table: the descriptor of each key it has a case for, `None` (`undefined`) for every other key |
| `SamDefaults.NewQuantumEfficiency` | src/app/SAM.ts:1372-1376 | `new QuantumEfficiency()` is a fresh node holding `insert` false, `volume` `''`, `unique_qe` undefined, the keys `QuantumEfficiency.input_type` describes; the fields are `QuantumEfficiencyFields()` and hold no node (`DefaultNode`) |
| `SamDefaults.QuantumEfficiencyFields` | src/app/SAM.ts:1372-1376 | the field map `new QuantumEfficiency()` stores, key by key as the constructor writes it, holding no node |
| `SamDefaults.QuantumEfficiencyChildren` | src/app/SAM.ts:1372-1376 | the fields of `new QuantumEfficiency()` hold no node, so none is shared |
| `SamDefaults.QuantumEfficiencyDefault` | src/app/SAM.ts:1372-1376 | a `QuantumEfficiency` node holding `QuantumEfficiencyFields` of no nodes is what `new QuantumEfficiency()` builds: its fields conform to `QuantumEfficiency.input_type` |
| `SamDefaults.QuantumEfficiencyConforms` | src/app/SAM.ts:1378-1384 | the field map `new QuantumEfficiency()` stores has the key set of `QuantumEfficiency.input_type` and every value fits its descriptor: union fields `undefined`, numbers `null`, strings `''`, flags `false`, nodes of the named class, lists of one node |
| `SamDefaults.QuantumEfficiencyKeys` | src/app/SAM.ts:1378-1384 | `QuantumEfficiency.input_type` describes exactly the keys `insert`, `volume`, `unique_qe` that `new QuantumEfficiency()` stores; every other key gives `undefined` |
| `SamDefaults.QuantumEfficiencyFieldsFit` | src/app/SAM.ts:1372-1376 | each value `new QuantumEfficiency()` stores fits the descriptor `QuantumEfficiency.input_type` gives its key |
| `SamUnionSlots.QuantumEfficiencyUnionFields` | src/app/SAM.ts:1378-1384 | the tagged-union fields of `QuantumEfficiency` are exactly `unique_qe` |
| `SamUnionSlots.QuantumEfficiencyUnionSlots` | src/app/SAM.ts:1378-1384 | `UnionSlots` lists exactly the union fields of `QuantumEfficiency` |
| `SamInputType.InputTypeOfSpblurring` | src/app/SAM.ts:1410-1416 | `input_type(key)` on a `Spblurring` node is the switch of `Spblurring.input_type` |
| `SamInputType.SpblurringInputType` | src/app/SAM.ts:1410-1416 | the switch of `Spblurring.input_type` as a table: the descriptor of each key it has a case for, `None` (`undefined`) for every other key |
| `SamDefaults.NewSpblurring` | src/app/SAM.ts:1404-1408 | `new Spblurring()` is a fresh node holding `insert` false, `spresolution` a new Value, `verbose` null, the keys `Spblurring.input_type` describes; the fields are `SpblurringFields` of the nodes it builds, and each of those nodes is new, is the default of its own class, is not the node itself and is held at one place only (`DefaultNode`) |
| `SamDefaults.SpblurringFields` | src/app/SAM.ts:1404-1408 | the field map `new Spblurring()` stores, key by key as the constructor writes it, given the nodes it builds for `spresolution` |
| `SamDefaults.SpblurringUnshared` | src/app/SAM.ts:1404-1408 | no node the fields of `new Spblurring()` hold is held by two fields or twice in one list |
| `SamDefaults.SpblurringDefault` | src/app/SAM.ts:1404-1408 | a `Spblurring` node holding `SpblurringFields` of a node that is the default of its class and not the node is what `new Spblurring()` builds: its fields conform to `Spblurring.input_type`, and its child nodes are defaults of their own classes, held at one place only |
| `SamDefaults.SpblurringFresh` | src/app/SAM.ts:1404-1408 | `new Spblurring()` allocates everything it stores: the node it returns and the nodes it builds for `SpblurringFields` are all new, so no node that existed before is reachable from its fields |
| `SamDefaults.SpblurringConforms` | src/app/SAM.ts:1410-1416 | the field map `new Spblurring()` stores has the key set of `Spblurring.input_type` and every value fits its descriptor: union fields `undefined`, numbers `null`, strings `''`, flags `false`, nodes of the named class, lists of one node |
| `SamDefaults.SpblurringKeys` | src/app/SAM.ts:1410-1416 | `Spblurring.input_type` describes exactly the keys `insert`, `spresolution`, `verbose` that `new Spblurring()` stores; every other key gives `undefined` |
| `SamDefaults.SpblurringFieldsFit` | src/app/SAM.ts:1404-1408 | each value `new Spblurring()` stores fits the descriptor `Spblurring.input_type` gives its key |
| `SamUnionSlots.SpblurringUnionFields` | src/app/SAM.ts:1410-1416 | `Spblurring.input_type` describes no tagged-union field |
| `SamUnionSlots.SpblurringUnionSlots` | src/app/SAM.ts:1410-1416 | `UnionSlots` lists exactly the union fields of `Spblurring` |
| `SamInputType.InputTypeOfCalibration` | src/app/SAM.ts:1428-1433 | `input_type(key)` on a `Calibration` node is the switch of `Calibration.input_type` |
| `SamInputType.CalibrationInputType` | src/app/SAM.ts:1428-1433 | the switch of `Calibration.input_type` as a table: the descriptor of each key it has a case for, `None` (`undefined`) for every other key |
| `SamDefaults.NewCalibration` | src/app/SAM.ts:1423-1426 | `new Calibration()` is a fresh node holding `insert` false, `value` null, the keys `Calibration.input_type` describes; the fields are `CalibrationFields()` and hold no node (`DefaultNode`) |
| `SamDefaults.CalibrationFields` | src/app/SAM.ts:1423-1426 | the field map `new Calibration()` stores, key by key as the constructor writes it, holding no node |
| `SamDefaults.CalibrationChildren` | src/app/SAM.ts:1423-1426 | the fields of `new Calibration()` hold no node, so none is shared |
| `SamDefaults.CalibrationDefault` | src/app/SAM.ts:1423-1426 | a `Calibration` node holding `CalibrationFields` of no nodes is what `new Calibration()` builds: its fields conform to `Calibration.input_type` |
| `SamDefaults.CalibrationConforms` | src/app/SAM.ts:1428-1433 | the field map `new Calibration()` stores has the key set of `Calibration.input_type` and every value fits its descriptor: union fields `undefined`, numbers `null`, strings `''`, flags `false`, nodes of the named class, lists of one node |
| `SamUnionSlots.CalibrationUnionFields` | src/app/SAM.ts:1428-1433 | `Calibration.input_type` describes no tagged-union field |
| `SamUnionSlots.CalibrationUnionSlots` | src/app/SAM.ts:1428-1433 | `UnionSlots` lists exactly the union fields of `Calibration` |
| `SamInputType.InputTypeOfCrosstalk` | src/app/SAM.ts:1449-1456 | `input_type(key)` on a `Crosstalk` node is the switch of `Crosstalk.input_type` |
| `SamInputType.CrosstalkInputType` | src/app/SAM.ts:1449-1456 | the switch of `Crosstalk.input_type` as a table: the descriptor of each key it has a case for, `None` (`undefined`) for every other key |
| `SamDefaults.NewCrosstalk` | src/app/SAM.ts:1442-1447 | `new Crosstalk()` is a fresh node holding `insert` false, `crosstalk_volume` `''`, `edges_fraction` null, `corners_fraction` null, the keys `Crosstalk.input_type` describes; the fields are `CrosstalkFields()` and hold no node (`DefaultNode`) |
| `SamDefaults.CrosstalkFields` | src/app/SAM.ts:1442-1447 | the field map `new Crosstalk()` stores, key by key as the constructor writes it, holding no node |
| `SamDefaults.CrosstalkChildren` | src/app/SAM.ts:1442-1447 | the fields of `new Crosstalk()` hold no node, so none is shared |
| `SamDefaults.CrosstalkDefault` | src/app/SAM.ts:1442-1447 | a `Crosstalk` node holding `CrosstalkFields` of no nodes is what `new Crosstalk()` builds: its fields conform to `Crosstalk.input_type` |
| `SamDefaults.CrosstalkConforms` | src/app/SAM.ts:1449-1456 | the field map `new Crosstalk()` stores has the key set of `Crosstalk.input_type` and every value fits its descriptor: union fields `undefined`, numbers `null`, strings `''`, flags `false`, nodes of the named class, lists of one node |
| `SamDefaults.CrosstalkKeys` | src/app/SAM.ts:1449-1456 | `Crosstalk.input_type` describes exactly the keys `insert`, `crosstalk_volume`, `edges_fraction`, `corners_fraction` that `new Crosstalk()` stores; every other key gives `undefined` |
| `SamDefaults.CrosstalkFieldsFit` | src/app/SAM.ts:1442-1447 | each value `new Crosstalk()` stores fits the descriptor `Crosstalk.input_type` gives its key |
| `SamUnionSlots.CrosstalkUnionFields` | src/app/SAM.ts:1449-1456 | `Crosstalk.input_type` describes no tagged-union field |
| `SamUnionSlots.CrosstalkUnionSlots` | src/app/SAM.ts:1449-1456 | `UnionSlots` lists exactly the union fields of `Crosstalk` |
| `SamInputType.InputTypeOfThresholder` | src/app/SAM.ts:1468-1473 | `input_type(key)` on a `Thresholder` node is the switch of `Thresholder.input_type` |
| `SamInputType.ThresholderInputType` | src/app/SAM.ts:1468-1473 | the switch of `Thresholder.input_type` as a table: the descriptor of each key it has a case for, `None` (`undefined`) for every other key |
| `SamDefaults.NewThresholder` | src/app/SAM.ts:1463-1466 | `new Thresholder()` is a fresh node holding `insert` false, `value` a new Value, the keys `Thresholder.input_type` describes; the fields are `ThresholderFields` of the nodes it builds, and each of those nodes is new, is the default of its own class, is not the node itself and is held at one place only (`DefaultNode`) |
| `SamDefaults.ThresholderFields` | src/app/SAM.ts:1463-1466 | the field map `new Thresholder()` stores, key by key as the constructor writes it, given the nodes it builds for `value` |
| `SamDefaults.ThresholderUnshared` | src/app/SAM.ts:1463-1466 | no node the fields of `new Thresholder()` hold is held by two fields or twice in one list |
| `SamDefaults.ThresholderDefault` | src/app/SAM.ts:1463-1466 | a `Thresholder` node holding `ThresholderFields` of a node that is the default of its class and not the node is what `new Thresholder()` builds: its fields conform to `Thresholder.input_type`, and its child nodes are defaults of their own classes, held at one place only |
| `SamDefaults.ThresholderFresh` | src/app/SAM.ts:1463-1466 | `new Thresholder()` allocates everything it stores: the node it returns and the nodes it builds for `ThresholderFields` are all new, so no node that existed before is reachable from its fields |
| `SamDefaults.ThresholderConforms` | src/app/SAM.ts:1468-1473 | the field map `new Thresholder()` stores has the key set of `Thresholder.input_type` and every value fits its descriptor: union fields `undefined`, numbers `null`, strings `''`, flags `false`, nodes of the named class, lists of one node |
| `SamUnionSlots.ThresholderUnionFields` | src/app/SAM.ts:1468-1473 | `Thresholder.input_type` describes no tagged-union field |
| `SamUnionSlots.ThresholderUnionSlots` | src/app/SAM.ts:1468-1473 | `UnionSlots` lists exactly the union fields of `Thresholder` |
| `SamInputType.InputTypeOfUpholder` | src/app/SAM.ts:1485-1490 | `input_type(key)` on a `Upholder` node is the switch of `Upholder.input_type` |
| `SamInputType.UpholderInputType` | src/app/SAM.ts:1485-1490 | the switch of `Upholder.input_type` as a table: the descriptor of each key it has a case for, `None` (`undefined`) for every other key |
| `SamDefaults.NewUpholder` | src/app/SAM.ts:1480-1483 | `new Upholder()` is a fresh node holding `insert` false, `value` a new Value, the keys `Upholder.input_type` describes; the fields are `UpholderFields` of the nodes it builds, and each of those nodes is new, is the default of its own class, is not the node itself and is held at one place only (`DefaultNode`) |
| `SamDefaults.UpholderFields` | src/app/SAM.ts:1480-1483 | the field map `new Upholder()` stores, key by key as the constructor writes it, given the nodes it builds for `value` |
| `SamDefaults.UpholderUnshared` | src/app/SAM.ts:1480-1483 | no node the fields of `new Upholder()` hold is held by two fields or twice in one list |
| `SamDefaults.UpholderDefault` | src/app/SAM.ts:1480-1483 | a `Upholder` node holding `UpholderFields` of a node that is the default of its class and not the node is what `new Upholder()` builds: its fields conform to `Upholder.input_type`, and its child nodes are defaults of their own classes, held at one place only |
| `SamDefaults.UpholderFresh` | src/app/SAM.ts:1480-1483 | `new Upholder()` allocates everything it stores: the node it returns and the nodes it builds for `UpholderFields` are all new, so no node that existed before is reachable from its fields |
| `SamDefaults.UpholderConforms` | src/app/SAM.ts:1485-1490 | the field map `new Upholder()` stores has the key set of `Upholder.input_type` and every value fits its descriptor: union fields `undefined`, numbers `null`, strings `''`, flags `false`, nodes of the named class, lists of one node |
| `SamUnionSlots.UpholderUnionFields` | src/app/SAM.ts:1485-1490 | `Upholder.input_type` describes no tagged-union field |
| `SamUnionSlots.UpholderUnionSlots` | src/app/SAM.ts:1485-1490 | `UnionSlots` lists exactly the union fields of `Upholder` |
| `SamInputType.InputTypeOfWindow` | src/app/SAM.ts:1506-1513 | `input_type(key)` on a `Window` node is the switch of `Window.input_type` |
| `SamInputType.WindowInputType` | src/app/SAM.ts:1506-1513 | the switch of `Window.input_type` as a table: the descriptor of each key it has a case for, `None` (`undefined`) for every other key |
| `SamDefaults.NewWindow` | src/app/SAM.ts:1499-1504 | `new Window()` is a fresh node holding `insert` false, `input_name` `''`, `thresholder` a new Thresholder, `uphold` a new Upholder, the keys `Window.input_type` describes; the fields are `WindowFields` of the nodes it builds, and each of those nodes is new, is the default of its own class, is not the node itself and is held at one place only (`DefaultNode`) |
| `SamDefaults.WindowFields` | src/app/SAM.ts:1499-1504 | the field map `new Window()` stores, key by key as the constructor writes it, given the nodes it builds for `thresholder`, `uphold` |
| `SamDefaults.WindowUnshared` | src/app/SAM.ts:1499-1504 | no node the fields of `new Window()` hold is held by two fields or twice in one list |
| `SamDefaults.WindowDefault` | src/app/SAM.ts:1499-1504 | a `Window` node holding `WindowFields` of nodes each the default of its class, not the node and distinct from one another is what `new Window()` builds: its fields conform to `Window.input_type`, and its child nodes are defaults of their own classes, held at one place only |
| `SamDefaults.WindowFresh` | src/app/SAM.ts:1499-1504 | `new Window()` allocates everything it stores: the node it returns and the nodes it builds for `WindowFields` are all new, so no node that existed before is reachable from its fields |
| `SamDefaults.WindowConforms` | src/app/SAM.ts:1506-1513 | the field map `new Window()` stores has the key set of `Window.input_type` and every value fits its descriptor: union fields `undefined`, numbers `null`, strings `''`, flags `false`, nodes of the named class, lists of one node |
| `SamDefaults.WindowKeys` | src/app/SAM.ts:1506-1513 | `Window.input_type` describes exactly the keys `insert`, `input_name`, `thresholder`, `uphold` that `new Window()` stores; every other key gives `undefined` |
| `SamDefaults.WindowFieldsFit` | src/app/SAM.ts:1499-1504 | each value `new Window()` stores fits the descriptor `Window.input_type` gives its key |
| `SamUnionSlots.WindowUnionFields` | src/app/SAM.ts:1506-1513 | `Window.input_type` describes no tagged-union field |
| `SamUnionSlots.WindowUnionSlots` | src/app/SAM.ts:1506-1513 | `UnionSlots` lists exactly the union fields of `Window` |
| `SamInputType.InputTypeOfSigmoidalThresholder` | src/app/SAM.ts:1529-1536 | `input_type(key)` on a `SigmoidalThresholder` node is the switch of `SigmoidalThresholder.input_type` |
| `SamInputType.SigmoidalThresholderInputType` | src/app/SAM.ts:1529-1536 | the switch of `SigmoidalThresholder.input_type` as a table: the descriptor of each key it has a case for, `None` (`undefined`) for every other key |
| `SamDefaults.NewSigmoidalThresholder` | src/app/SAM.ts:1522-1527 | `new SigmoidalThresholder()` is a fresh node holding `insert` false, `threshold` a new Value, `threshold_alpha` null, `threshold_percent` null, the keys `SigmoidalThresholder.input_type` describes; the fields are `SigmoidalThresholderFields` of the nodes it builds, and each of those nodes is new, is the default of its own class, is not the node itself and is held at one place only (`DefaultNode`) |
| `SamDefaults.SigmoidalThresholderFields` | src/app/SAM.ts:1522-1527 | the field map `new SigmoidalThresholder()` stores, key by key as the constructor writes it, given the nodes it builds for `threshold` |
| `SamDefaults.SigmoidalThresholderUnshared` | src/app/SAM.ts:1522-1527 | no node the fields of `new SigmoidalThresholder()` hold is held by two fields or twice in one list |
| `SamDefaults.SigmoidalThresholderDefault` | src/app/SAM.ts:1522-1527 | a `SigmoidalThresholder` node holding `SigmoidalThresholderFields` of a node that is the default of its class and not the node is what `new SigmoidalThresholder()` builds: its fields conform to `SigmoidalThresholder.input_type`, and its child nodes are defaults of their own classes, held at one place only |
| `SamDefaults.SigmoidalThresholderFresh` | src/app/SAM.ts:1522-1527 | `new SigmoidalThresholder()` allocates everything it stores: the node it returns and the nodes it builds for `SigmoidalThresholderFields` are all new, so no node that existed before is reachable from its fields |
| `SamDefaults.SigmoidalThresholderConforms` | src/app/SAM.ts:1529-1536 | the field map `new SigmoidalThresholder()` stores has the key set of `SigmoidalThresholder.input_type` and every value fits its descriptor: union fields `undefined`, numbers `null`, strings `''`, flags `false`, nodes of the named class, lists of one node |
| `SamDefaults.SigmoidalThresholderKeys` | src/app/SAM.ts:1529-1536 | `SigmoidalThresholder.input_type` describes exactly the keys `insert`, `threshold`, `threshold_alpha`, `threshold_percent` that `new SigmoidalThresholder()` stores; every other key gives `undefined` |
| `SamDefaults.SigmoidalThresholderFieldsFit` | src/app/SAM.ts:1522-1527 | each value `new SigmoidalThresholder()` stores fits the descriptor `SigmoidalThresholder.input_type` gives its key |
| `SamUnionSlots.SigmoidalThresholderUnionFields` | src/app/SAM.ts:1529-1536 | `SigmoidalThresholder.input_type` describes no tagged-union field |
| `SamUnionSlots.SigmoidalThresholderUnionSlots` | src/app/SAM.ts:1529-1536 | `UnionSlots` lists exactly the union fields of `SigmoidalThresholder` |
| `SamInputType.InputTypeOfTimeResolution` | src/app/SAM.ts:1548-1553 | `input_type(key)` on a `TimeResolution` node is the switch of `TimeResolution.input_type` |
| `SamInputType.TimeResolutionInputType` | src/app/SAM.ts:1548-1553 | the switch of `TimeResolution.input_type` as a table: the descriptor of each key it has a case for, `None` (`undefined`) for every other key |
| `SamDefaults.NewTimeResolution` | src/app/SAM.ts:1543-1546 | `new TimeResolution()` is a fresh node holding `insert` false, `value` a new Value, the keys `TimeResolution.input_type` describes; the fields are `TimeResolutionFields` of the nodes it builds, and each of those nodes is new, is the default of its own class, is not the node itself and is held at one place only (`DefaultNode`) |
| `SamDefaults.TimeResolutionFields` | src/app/SAM.ts:1543-1546 | the field map `new TimeResolution()` stores, key by key as the constructor writes it, given the nodes it builds for `value` |
| `SamDefaults.TimeResolutionUnshared` | src/app/SAM.ts:1543-1546 | no node the fields of `new TimeResolution()` hold is held by two fields or twice in one list |
| `SamDefaults.TimeResolutionDefault` | src/app/SAM.ts:1543-1546 | a `TimeResolution` node holding `TimeResolutionFields` of a node that is the default of its class and not the node is what `new TimeResolution()` builds: its fields conform to `TimeResolution.input_type`, and its child nodes are defaults of their own classes, held at one place only |
| `SamDefaults.TimeResolutionFresh` | src/app/SAM.ts:1543-1546 | `new TimeResolution()` allocates everything it stores: the node it returns and the nodes it builds for `TimeResolutionFields` are all new, so no node that existed before is reachable from its fields |
| `SamDefaults.TimeResolutionConforms` | src/app/SAM.ts:1548-1553 | the field map `new TimeResolution()` stores has the key set of `TimeResolution.input_type` and every value fits its descriptor: union fields `undefined`, numbers `null`, strings `''`, flags `false`, nodes of the named class, lists of one node |
| `SamUnionSlots.TimeResolutionUnionFields` | src/app/SAM.ts:1548-1553 | `TimeResolution.input_type` describes no tagged-union field |
| `SamUnionSlots.TimeResolutionUnionSlots` | src/app/SAM.ts:1548-1553 | `UnionSlots` lists exactly the union fields of `TimeResolution` |
| `SamInputType.InputTypeOfNoise` | src/app/SAM.ts:1567-1575 | `input_type(key)` on a `Noise` node is the switch of `Noise.input_type` |
| `SamInputType.NoiseInputType` | src/app/SAM.ts:1567-1575 | the switch of `Noise.input_type` as a table: the descriptor of each key it has a case for, `None` (`undefined`) for every other key |
| `SamDefaults.NewNoise` | src/app/SAM.ts:1561-1565 | `new Noise()` is a fresh node holding `insert` false, `deltaT_distribution` undefined, `energy_distribution` undefined, the keys `Noise.input_type` describes; the fields are `NoiseFields()` and hold no node (`DefaultNode`) |
| `SamDefaults.NoiseFields` | src/app/SAM.ts:1561-1565 | the field map `new Noise()` stores, key by key as the constructor writes it, holding no node |
| `SamDefaults.NoiseChildren` | src/app/SAM.ts:1561-1565 | the fields of `new Noise()` hold no node, so none is shared |
| `SamDefaults.NoiseDefault` | src/app/SAM.ts:1561-1565 | a `Noise` node holding `NoiseFields` of no nodes is what `new Noise()` builds: its fields conform to `Noise.input_type` |
| `SamDefaults.NoiseConforms` | src/app/SAM.ts:1567-1575 | the field map `new Noise()` stores has the key set of `Noise.input_type` and every value fits its descriptor: union fields `undefined`, numbers `null`, strings `''`, flags `false`, nodes of the named class, lists of one node |
| `SamDefaults.NoiseKeys` | src/app/SAM.ts:1567-1575 | `Noise.input_type` describes exactly the keys `insert`, `deltaT_distribution`, `energy_distribution` that `new Noise()` stores; every other key gives `undefined` |
| `SamDefaults.NoiseFieldsFit` | src/app/SAM.ts:1561-1565 | each value `new Noise()` stores fits the descriptor `Noise.input_type` gives its key |
| `SamUnionSlots.NoiseUnionFields` | src/app/SAM.ts:1567-1575 | the tagged-union fields of `Noise` are exactly `deltaT_distribution`, `energy_distribution` |
| `SamUnionSlots.NoiseUnionSlots` | src/app/SAM.ts:1567-1575 | `UnionSlots` lists exactly the union fields of `Noise` |
| `SamInputType.InputTypeOfLocalEfficiency` | src/app/SAM.ts:1614-1622 | `input_type(key)` on a `LocalEfficiency` node is the switch of `LocalEfficiency.input_type` |
| `SamInputType.LocalEfficiencyInputType` | src/app/SAM.ts:1614-1622 | the switch of `LocalEfficiency.input_type` as a table: the descriptor of each key it has a case for, `None` (`undefined`) for every other key |
| `SamDefaults.NewLocalEfficiency` | src/app/SAM.ts:1608-1612 | `new LocalEfficiency()` is a fresh node holding `insert` false, `Level1` undefined, `Level2` undefined, the keys `LocalEfficiency.input_type` describes; the fields are `LocalEfficiencyFields()` and hold no node (`DefaultNode`) |
| `SamDefaults.LocalEfficiencyFields` | src/app/SAM.ts:1608-1612 | the field map `new LocalEfficiency()` stores, key by key as the constructor writes it, holding no node |
| `SamDefaults.LocalEfficiencyChildren` | src/app/SAM.ts:1608-1612 | the fields of `new LocalEfficiency()` hold no node, so none is shared |
| `SamDefaults.LocalEfficiencyDefault` | src/app/SAM.ts:1608-1612 | a `LocalEfficiency` node holding `LocalEfficiencyFields` of no nodes is what `new LocalEfficiency()` builds: its fields conform to `LocalEfficiency.input_type` |
| `SamDefaults.LocalEfficiencyConforms` | src/app/SAM.ts:1614-1622 | the field map `new LocalEfficiency()` stores has the key set of `LocalEfficiency.input_type` and every value fits its descriptor: union fields `undefined`, numbers `null`, strings `''`, flags `false`, nodes of the named class, lists of one node |
| `SamDefaults.LocalEfficiencyKeys` | src/app/SAM.ts:1614-1622 | `LocalEfficiency.input_type` describes exactly the keys `insert`, `Level1`, `Level2` that `new LocalEfficiency()` stores; every other key gives `undefined` |
| `SamDefaults.LocalEfficiencyFieldsFit` | src/app/SAM.ts:1608-1612 | each value `new LocalEfficiency()` stores fits the descriptor `LocalEfficiency.input_type` gives its key |
| `SamUnionSlots.LocalEfficiencyUnionFields` | src/app/SAM.ts:1614-1622 | the tagged-union fields of `LocalEfficiency` are exactly `Level1`, `Level2` |
| `SamUnionSlots.LocalEfficiencyUnionSlots` | src/app/SAM.ts:1614-1622 | `UnionSlots` lists exactly the union fields of `LocalEfficiency` |
| `SamInputType.InputTypeOfBuffer` | src/app/SAM.ts:1663-1670 | `input_type(key)` on a `Buffer` node is the switch of `Buffer.input_type` |
| `SamInputType.BufferInputType` | src/app/SAM.ts:1663-1670 | the switch of `Buffer.input_type` as a table: the descriptor of each key it has a case for, `None` (`undefined`) for every other key |
| `SamDefaults.NewBuffer` | src/app/SAM.ts:1656-1661 | `new Buffer()` is a fresh node holding `insert` false, `buffer_size` a new Value, `read_frequency` a new Value, `mode` null, the keys `Buffer.input_type` describes; the fields are `BufferFields` of the nodes it builds, and each of those nodes is new, is the default of its own class, is not the node itself and is held at one place only (`DefaultNode`) |
| `SamDefaults.BufferFields` | src/app/SAM.ts:1656-1661 | the field map `new Buffer()` stores, key by key as the constructor writes it, given the nodes it builds for `buffer_size`, `read_frequency` |
| `SamDefaults.BufferUnshared` | src/app/SAM.ts:1656-1661 | no node the fields of `new Buffer()` hold is held by two fields or twice in one list |
| `SamDefaults.BufferDefault` | src/app/SAM.ts:1656-1661 | a `Buffer` node holding `BufferFields` of nodes each the default of its class, not the node and distinct from one another is what `new Buffer()` builds: its fields conform to `Buffer.input_type`, and its child nodes are defaults of their own classes, held at one place only |
| `SamDefaults.BufferFresh` | src/app/SAM.ts:1656-1661 | `new Buffer()` allocates everything it stores: the node it returns and the nodes it builds for `BufferFields` are all new, so no node that existed before is reachable from its fields |
| `SamDefaults.BufferConforms` | src/app/SAM.ts:1663-1670 | the field map `new Buffer()` stores has the key set of `Buffer.input_type` and every value fits its descriptor: union fields `undefined`, numbers `null`, strings `''`, flags `false`, nodes of the named class, lists of one node |
| `SamDefaults.BufferKeys` | src/app/SAM.ts:1663-1670 | `Buffer.input_type` describes exactly the keys `insert`, `buffer_size`, `read_frequency`, `mode` that `new Buffer()` stores; every other key gives `undefined` |
| `SamDefaults.BufferFieldsFit` | src/app/SAM.ts:1656-1661 | each value `new Buffer()` stores fits the descriptor `Buffer.input_type` gives its key |
| `SamUnionSlots.BufferUnionFields` | src/app/SAM.ts:1663-1670 | `Buffer.input_type` describes no tagged-union field |
| `SamUnionSlots.BufferUnionSlots` | src/app/SAM.ts:1663-1670 | `UnionSlots` lists exactly the union fields of `Buffer` |
| `SamInputType.InputTypeOfPileup` | src/app/SAM.ts:1684-1690 | `input_type(key)` on a `Pileup` node is the switch of `Pileup.input_type` |
| `SamInputType.PileupInputType` | src/app/SAM.ts:1684-1690 | the switch of `Pileup.input_type` as a table: the descriptor of each key it has a case for, `None` (`undefined`) for every other key |
| `SamDefaults.NewPileup` | src/app/SAM.ts:1678-1682 | `new Pileup()` is a fresh node holding `insert` false, `depth` null, `value` a new Value, the keys `Pileup.input_type` describes; the fields are `PileupFields` of the nodes it builds, and each of those nodes is new, is the default of its own class, is not the node itself and is held at one place only (`DefaultNode`) |
| `SamDefaults.PileupFields` | src/app/SAM.ts:1678-1682 | the field map `new Pileup()` stores, key by key as the constructor writes it, given the nodes it builds for `value` |
| `SamDefaults.PileupUnshared` | src/app/SAM.ts:1678-1682 | no node the fields of `new Pileup()` hold is held by two fields or twice in one list |
| `SamDefaults.PileupDefault` | src/app/SAM.ts:1678-1682 | a `Pileup` node holding `PileupFields` of a node that is the default of its class and not the node is what `new Pileup()` builds: its fields conform to `Pileup.input_type`, and its child nodes are defaults of their own classes, held at one place only |
| `SamDefaults.PileupFresh` | src/app/SAM.ts:1678-1682 | `new Pileup()` allocates everything it stores: the node it returns and the nodes it builds for `PileupFields` are all new, so no node that existed before is reachable from its fields |
| `SamDefaults.PileupConforms` | src/app/SAM.ts:1684-1690 | the field map `new Pileup()` stores has the key set of `Pileup.input_type` and every value fits its descriptor: union fields `undefined`, numbers `null`, strings `''`, flags `false`, nodes of the named class, lists of one node |
| `SamDefaults.PileupKeys` | src/app/SAM.ts:1684-1690 | `Pileup.input_type` describes exactly the keys `insert`, `depth`, `value` that `new Pileup()` stores; every other key gives `undefined` |
| `SamDefaults.PileupFieldsFit` | src/app/SAM.ts:1678-1682 | each value `new Pileup()` stores fits the descriptor `Pileup.input_type` gives its key |
| `SamUnionSlots.PileupUnionFields` | src/app/SAM.ts:1684-1690 | `Pileup.input_type` describes no tagged-union field |
| `SamUnionSlots.PileupUnionSlots` | src/app/SAM.ts:1684-1690 | `UnionSlots` lists exactly the union fields of `Pileup` |
| `SamInputType.InputTypeOfDeadTime` | src/app/SAM.ts:1710-1719 | `input_type(key)` on a `DeadTime` node is the switch of `DeadTime.input_type` |
| `SamInputType.DeadTimeInputType` | src/app/SAM.ts:1710-1719 | the switch of `DeadTime.input_type` as a table: the descriptor of each key it has a case for, `None` (`undefined`) for every other key |
| `SamDefaults.NewDeadTime` | src/app/SAM.ts:1701-1708 | `new DeadTime()` is a fresh node holding `insert` false, `value` a new Value, `mode` `''`, `dt_volume` `''`, `buffer_size` a new Value, `buffer_mode` null, the keys `DeadTime.input_type` describes; the fields are `DeadTimeFields` of the nodes it builds, and each of those nodes is new, is the default of its own class, is not the node itself and is held at one place only (`DefaultNode`) |
| `SamDefaults.DeadTimeFields` | src/app/SAM.ts:1701-1708 | the field map `new DeadTime()` stores, key by key as the constructor writes it, given the nodes it builds for `value`, `buffer_size` |
| `SamDefaults.DeadTimeUnshared` | src/app/SAM.ts:1701-1708 | no node the fields of `new DeadTime()` hold is held by two fields or twice in one list |
| `SamDefaults.DeadTimeDefault` | src/app/SAM.ts:1701-1708 | a `DeadTime` node holding `DeadTimeFields` of nodes each the default of its class, not the node and distinct from one another is what `new DeadTime()` builds: its fields conform to `DeadTime.input_type`, and its child nodes are defaults of their own classes, held at one place only |
| `SamDefaults.DeadTimeFresh` | src/app/SAM.ts:1701-1708 | `new DeadTime()` allocates everything it stores: the node it returns and the nodes it builds for `DeadTimeFields` are all new, so no node that existed before is reachable from its fields |
| `SamDefaults.DeadTimeConforms` | src/app/SAM.ts:1710-1719 | the field map `new DeadTime()` stores has the key set of `DeadTime.input_type` and every value fits its descriptor: union fields `undefined`, numbers `null`, strings `''`, flags `false`, nodes of the named class, lists of one node |
| `SamDefaults.DeadTimeKeys` | src/app/SAM.ts:1710-1719 | `DeadTime.input_type` describes exactly the keys `insert`, `value`, `mode`, `dt_volume`, `buffer_size`, `buffer_mode` that `new DeadTime()` stores; every other key gives `undefined` |
| `SamDefaults.DeadTimeFieldsFit` | src/app/SAM.ts:1701-1708 | each value `new DeadTime()` stores fits the descriptor `DeadTime.input_type` gives its key |
| `SamUnionSlots.DeadTimeUnionFields` | src/app/SAM.ts:1710-1719 | `DeadTime.input_type` describes no tagged-union field |
| `SamUnionSlots.DeadTimeUnionSlots` | src/app/SAM.ts:1710-1719 | `UnionSlots` lists exactly the union fields of `DeadTime` |
| `SamInputType.InputTypeOfCoincidences` | src/app/SAM.ts:1739-1748 | `input_type(key)` on a `Coincidences` node is the switch of `Coincidences.input_type` |
| `SamInputType.CoincidencesInputType` | src/app/SAM.ts:1739-1748 | the switch of `Coincidences.input_type` as a table: the descriptor of each key it has a case for, `None` (`undefined`) for every other key |
| `SamDefaults.NewCoincidences` | src/app/SAM.ts:1730-1737 | `new Coincidences()` is a fresh node holding `window` a new Value, `min_sector_difference` null, `offset` a new Value, `depth` null, `all_pulse_open_coinc_gate` false, `multiple_policy` `''`, the keys `Coincidences.input_type` describes; the fields are `CoincidencesFields` of the nodes it builds, and each of those nodes is new, is the default of its own class, is not the node itself and is held at one place only (`DefaultNode`) |
| `SamDefaults.CoincidencesFields` | src/app/SAM.ts:1730-1737 | the field map `new Coincidences()` stores, key by key as the constructor writes it, given the nodes it builds for `window`, `offset` |
| `SamDefaults.CoincidencesUnshared` | src/app/SAM.ts:1730-1737 | no node the fields of `new Coincidences()` hold is held by two fields or twice in one list |
| `SamDefaults.CoincidencesDefault` | src/app/SAM.ts:1730-1737 | a `Coincidences` node holding `CoincidencesFields` of nodes each the default of its class, not the node and distinct from one another is what `new Coincidences()` builds: its fields conform to `Coincidences.input_type`, and its child nodes are defaults of their own classes, held at one place only |
| `SamDefaults.CoincidencesFresh` | src/app/SAM.ts:1730-1737 | `new Coincidences()` allocates everything it stores: the node it returns and the nodes it builds for `CoincidencesFields` are all new, so no node that existed before is reachable from its fields |
| `SamDefaults.CoincidencesConforms` | src/app/SAM.ts:1739-1748 | the field map `new Coincidences()` stores has the key set of `Coincidences.input_type` and every value fits its descriptor: union fields `undefined`, numbers `null`, strings `''`, flags `false`, nodes of the named class, lists of one node |
| `SamDefaults.CoincidencesKeys` | src/app/SAM.ts:1739-1748 | `Coincidences.input_type` describes exactly the keys `window`, `min_sector_difference`, `offset`, `depth`, `all_pulse_open_coinc_gate`, `multiple_policy` that `new Coincidences()` stores; every other key gives `undefined` |
| `SamDefaults.CoincidencesFieldsFit` | src/app/SAM.ts:1730-1737 | each value `new Coincidences()` stores fits the descriptor `Coincidences.input_type` gives its key |
| `SamUnionSlots.CoincidencesUnionFields` | src/app/SAM.ts:1739-1748 | `Coincidences.input_type` describes no tagged-union field |
| `SamUnionSlots.CoincidencesUnionSlots` | src/app/SAM.ts:1739-1748 | `UnionSlots` lists exactly the union fields of `Coincidences` |
| `SamInputType.InputTypeOfCoincidenceSorter` | src/app/SAM.ts:1764-1771 | `input_type(key)` on a `CoincidenceSorter` node is the switch of `CoincidenceSorter.input_type` |
| `SamInputType.CoincidenceSorterInputType` | src/app/SAM.ts:1764-1771 | the switch of `CoincidenceSorter.input_type` as a table: the descriptor of each key it has a case for, `None` (`undefined`) for every other key |
| `SamDefaults.NewCoincidenceSorter` | src/app/SAM.ts:1757-1762 | `new CoincidenceSorter()` is a fresh node holding `insert` false, `name` `''`, `input_name` `''`, `window` a new Value, the keys `CoincidenceSorter.input_type` describes; the fields are `CoincidenceSorterFields` of the nodes it builds, and each of those nodes is new, is the default of its own class, is not the node itself and is held at one place only (`DefaultNode`) |
| `SamDefaults.CoincidenceSorterFields` | src/app/SAM.ts:1757-1762 | the field map `new CoincidenceSorter()` stores, key by key as the constructor writes it, given the nodes it builds for `window` |
| `SamDefaults.CoincidenceSorterUnshared` | src/app/SAM.ts:1757-1762 | no node the fields of `new CoincidenceSorter()` hold is held by two fields or twice in one list |
| `SamDefaults.CoincidenceSorterDefault` | src/app/SAM.ts:1757-1762 | a `CoincidenceSorter` node holding `CoincidenceSorterFields` of a node that is the default of its class and not the node is what `new CoincidenceSorter()` builds: its fields conform to `CoincidenceSorter.input_type`, and its child nodes are defaults of their own classes, held at one place only |
| `SamDefaults.CoincidenceSorterFresh` | src/app/SAM.ts:1757-1762 | `new CoincidenceSorter()` allocates everything it stores: the node it returns and the nodes it builds for `CoincidenceSorterFields` are all new, so no node that existed before is reachable from its fields |
| `SamDefaults.CoincidenceSorterConforms` | src/app/SAM.ts:1764-1771 | the field map `new CoincidenceSorter()` stores has the key set of `CoincidenceSorter.input_type` and every value fits its descriptor: union fields `undefined`, numbers `null`, strings `''`, flags `false`, nodes of the named class, lists of one node |
| `SamDefaults.CoincidenceSorterKeys` | src/app/SAM.ts:1764-1771 | `CoincidenceSorter.input_type` describes exactly the keys `insert`, `name`, `input_name`, `window` that `new CoincidenceSorter()` stores; every other key gives `undefined` |
| `SamDefaults.CoincidenceSorterFieldsFit` | src/app/SAM.ts:1757-1762 | each value `new CoincidenceSorter()` stores fits the descriptor `CoincidenceSorter.input_type` gives its key |
| `SamUnionSlots.CoincidenceSorterUnionFields` | src/app/SAM.ts:1764-1771 | `CoincidenceSorter.input_type` describes no tagged-union field |
| `SamUnionSlots.CoincidenceSorterUnionSlots` | src/app/SAM.ts:1764-1771 | `UnionSlots` lists exactly the union fields of `CoincidenceSorter` |
| `SamInputType.InputTypeOfChooseSource` | src/app/SAM.ts:1783-1787 | `input_type(key)` on a `ChooseSource` node is the switch of `ChooseSource.input_type` |
| `SamInputType.ChooseSourceInputType` | src/app/SAM.ts:1783-1787 | the switch of `ChooseSource.input_type` as a table: the descriptor of each key it has a case for, `None` (`undefined`) for every other key |
| `SamDefaults.NewChooseSource` | src/app/SAM.ts:1779-1781 | `new ChooseSource()` is a fresh node holding `choose_source` undefined, the keys `ChooseSource.input_type` describes; the fields are `ChooseSourceFields()` and hold no node (`DefaultNode`) |
| `SamDefaults.ChooseSourceFields` | src/app/SAM.ts:1779-1781 | the field map `new ChooseSource()` stores, key by key as the constructor writes it, holding no node |
| `SamDefaults.ChooseSourceChildren` | src/app/SAM.ts:1779-1781 | the fields of `new ChooseSource()` hold no node, so none is shared |
| `SamDefaults.ChooseSourceDefault` | src/app/SAM.ts:1779-1781 | a `ChooseSource` node holding `ChooseSourceFields` of no nodes is what `new ChooseSource()` builds: its fields conform to `ChooseSource.input_type` |
| `SamDefaults.ChooseSourceConforms` | src/app/SAM.ts:1783-1787 | the field map `new ChooseSource()` stores has the key set of `ChooseSource.input_type` and every value fits its descriptor: union fields `undefined`, numbers `null`, strings `''`, flags `false`, nodes of the named class, lists of one node |
| `SamUnionSlots.ChooseSourceUnionFields` | src/app/SAM.ts:1783-1787 | the tagged-union fields of `ChooseSource` are exactly `choose_source` |
| `SamUnionSlots.ChooseSourceUnionSlots` | src/app/SAM.ts:1783-1787 | `UnionSlots` lists exactly the union fields of `ChooseSource` |
| `SamInputType.InputTypeOfSource` | src/app/SAM.ts:1839-1858 | `input_type(key)` on a `Source` node is the switch of `Source.input_type` |
| `SamInputType.SourceInputType` | src/app/SAM.ts:1839-1858 | the switch of `Source.input_type` as a table: the descriptor of each key it has a case for, `None` (`undefined`) for every other key |
| `SamDefaults.NewSource` | src/app/SAM.ts:1820-1837 | `new Source()` is a fresh node holding `name` `''`, `activity` a new Value, `type` `''`, `centre` a new Vec3, `particle` `''`, `energytype` `''`, `monoenergy` a new Value, `gps_type` `''`, `shape` `''`, `radius` a new Value, `halfz` a new Value, `angtype` `''`, `mintheta` a new Value, `maxtheta` a new Value, `minphi` a new Value, `maxphi` a new Value, the keys `Source.input_type` describes; the fields are `SourceFields` of the nodes it builds, and each of those nodes is new, is the default of its own class, is not the node itself and is held at one place only (`DefaultNode`) |
| `SamDefaults.SourceFields` | src/app/SAM.ts:1820-1837 | the field map `new Source()` stores, key by key as the constructor writes it, given the nodes it builds for `activity`, `centre`, `monoenergy`, `radius`, `halfz`, `mintheta`, `maxtheta`, `minphi`, `maxphi` |
| `SamDefaults.SourceUnshared` | src/app/SAM.ts:1820-1837 | no node the fields of `new Source()` hold is held by two fields or twice in one list |
| `SamDefaults.SourceDefault` | src/app/SAM.ts:1820-1837 | a `Source` node holding `SourceFields` of nodes each the default of its class, not the node and distinct from one another is what `new Source()` builds: its fields conform to `Source.input_type`, and its child nodes are defaults of their own classes, held at one place only |
| `SamDefaults.SourceFresh` | src/app/SAM.ts:1820-1837 | `new Source()` allocates everything it stores: the node it returns and the nodes it builds for `SourceFields` are all new, so no node that existed before is reachable from its fields |
| `SamDefaults.SourceConforms` | src/app/SAM.ts:1839-1858 | the field map `new Source()` stores has the key set of `Source.input_type` and every value fits its descriptor: union fields `undefined`, numbers `null`, strings `''`, flags `false`, nodes of the named class, lists of one node |
| `SamDefaults.SourceKeys` | src/app/SAM.ts:1839-1858 | `Source.input_type` describes exactly the keys `name`, `activity`, `type`, `centre`, `particle`, `energytype`, `monoenergy`, `gps_type`, `shape`, `radius`, `halfz`, `angtype`, `mintheta`, `maxtheta`, `minphi`, `maxphi` that `new Source()` stores; every other key gives `undefined` |
| `SamDefaults.SourceFieldsFit` | src/app/SAM.ts:1820-1837 | each value `new Source()` stores fits the descriptor `Source.input_type` gives its key |
| `SamDefaults.SourceFieldsFit1` | src/app/SAM.ts:1820-1837 | the values `new Source()` stores in `name`, `activity`, `type`, `centre`, `particle` fit their descriptors |
| `SamDefaults.SourceFieldsFit2` | src/app/SAM.ts:1820-1837 | the values `new Source()` stores in `energytype`, `monoenergy`, `gps_type`, `shape`, `radius` fit their descriptors |
| `SamDefaults.SourceFieldsFit3` | src/app/SAM.ts:1820-1837 | the values `new Source()` stores in `halfz`, `angtype`, `mintheta`, `maxtheta`, `minphi` fit their descriptors |
| `SamDefaults.SourceFieldsFit4` | src/app/SAM.ts:1820-1837 | the values `new Source()` stores in `maxphi` fit their descriptors |
| `SamUnionSlots.SourceUnionFields` | src/app/SAM.ts:1839-1858 | `Source.input_type` describes no tagged-union field |
| `SamUnionSlots.SourceUnionSlots` | src/app/SAM.ts:1839-1858 | `UnionSlots` lists exactly the union fields of `Source` |
| `SamInputType.InputTypeOfVoxelizedSource` | src/app/SAM.ts:1904-1926 | `input_type(key)` on a `VoxelizedSource` node is the switch of `VoxelizedSource.input_type` |
| `SamInputType.VoxelizedSourceInputType` | src/app/SAM.ts:1904-1926 | the switch of `VoxelizedSource.input_type` as a table: the descriptor of each key it has a case for, `None` (`undefined`) for every other key |
| `SamDefaults.NewVoxelizedSource` | src/app/SAM.ts:1882-1902 | `new VoxelizedSource()` is a fresh node holding `name` `''`, `insert_reader` `''`, `insert_translator` undefined, `read_file` `''`, `verbose` false, `position` a new Vec3, `dump` false, `type` `''`, `particle` `''`, `energy_type` `''`, `monoenergy` a new Value, `angtype` `''`, `mintheta` a new Value, `maxtheta` a new Value, `minphi` a new Value, `maxphi` a new Value, `confine` `''`, `forced_unstable_flag` false, `forced_half_life` a new Value, the keys `VoxelizedSource.input_type` describes; the fields are `VoxelizedSourceFields` of the nodes it builds, and each of those nodes is new, is the default of its own class, is not the node itself and is held at one place only (`DefaultNode`) |
| `SamDefaults.VoxelizedSourceFields` | src/app/SAM.ts:1882-1902 | the field map `new VoxelizedSource()` stores, key by key as the constructor writes it, given the nodes it builds for `position`, `monoenergy`, `mintheta`, `maxtheta`, `minphi`, `maxphi`, `forced_half_life` |
| `SamDefaults.VoxelizedSourceUnshared` | src/app/SAM.ts:1882-1902 | no node the fields of `new VoxelizedSource()` hold is held by two fields or twice in one list |
| `SamDefaults.VoxelizedSourceDefault` | src/app/SAM.ts:1882-1902 | a `VoxelizedSource` node holding `VoxelizedSourceFields` of nodes each the default of its class, not the node and distinct from one another is what `new VoxelizedSource()` builds: its fields conform to `VoxelizedSource.input_type`, and its child nodes are defaults of their own classes, held at one place only |
| `SamDefaults.VoxelizedSourceFresh` | src/app/SAM.ts:1882-1902 | `new VoxelizedSource()` allocates everything it stores: the node it returns and the nodes it builds for `VoxelizedSourceFields` are all new, so no node that existed before is reachable from its fields |
| `SamDefaults.VoxelizedSourceConforms` | src/app/SAM.ts:1904-1926 | the field map `new VoxelizedSource()` stores has the key set of `VoxelizedSource.input_type` and every value fits its descriptor: union fields `undefined`, numbers `null`, strings `''`, flags `false`, nodes of the named class, lists of one node |
| `SamDefaults.VoxelizedSourceKeys` | src/app/SAM.ts:1904-1926 | `VoxelizedSource.input_type` describes exactly the keys `name`, `insert_reader`, `insert_translator`, `read_file`, `verbose`, `position`, `dump`, `type`, `particle`, `energy_type`, `monoenergy`, `angtype`, `mintheta`, `maxtheta`, `minphi`, `maxphi`, `confine`, `forced_unstable_flag`, `forced_half_life` that `new VoxelizedSource()` stores; every other key gives `undefined` |
| `SamDefaults.VoxelizedSourceFieldsFit` | src/app/SAM.ts:1882-1902 | each value `new VoxelizedSource()` stores fits the descriptor `VoxelizedSource.input_type` gives its key |
| `SamDefaults.VoxelizedSourceFieldsFit1` | src/app/SAM.ts:1882-1902 | the values `new VoxelizedSource()` stores in `name`, `insert_reader`, `insert_translator`, `read_file`, `verbose` fit their descriptors |
| `SamDefaults.VoxelizedSourceFieldsFit2` | src/app/SAM.ts:1882-1902 | the values `new VoxelizedSource()` stores in `position`, `dump`, `type`, `particle`, `energy_type` fit their descriptors |
| `SamDefaults.VoxelizedSourceFieldsFit3` | src/app/SAM.ts:1882-1902 | the values `new VoxelizedSource()` stores in `monoenergy`, `angtype`, `mintheta`, `maxtheta`, `minphi` fit their descriptors |
| `SamDefaults.VoxelizedSourceFieldsFit4` | src/app/SAM.ts:1882-1902 | the values `new VoxelizedSource()` stores in `maxphi`, `confine`, `forced_unstable_flag`, `forced_half_life` fit their descriptors |
| `SamUnionSlots.VoxelizedSourceUnionFields` | src/app/SAM.ts:1904-1926 | the tagged-union fields of `VoxelizedSource` are exactly `insert_translator` |
| `SamUnionSlots.VoxelizedSourceUnionSlots` | src/app/SAM.ts:1904-1926 | `UnionSlots` lists exactly the union fields of `VoxelizedSource` |
| `SamInputType.InputTypeOfLinearTranslator` | src/app/SAM.ts:1957-1962 | `input_type(key)` on a `LinearTranslator` node is the switch of `LinearTranslator.input_type` |
| `SamInputType.LinearTranslatorInputType` | src/app/SAM.ts:1957-1962 | the switch of `LinearTranslator.input_type` as a table: the descriptor of each key it has a case for, `None` (`undefined`) for every other key |
| `SamDefaults.NewLinearTranslator` | src/app/SAM.ts:1952-1955 | `new LinearTranslator()` is a fresh node holding `insert` false, `scale` false, the keys `LinearTranslator.input_type` describes; the fields are `LinearTranslatorFields()` and hold no node (`DefaultNode`) |
| `SamDefaults.LinearTranslatorFields` | src/app/SAM.ts:1952-1955 | the field map `new LinearTranslator()` stores, key by key as the constructor writes it, holding no node |
| `SamDefaults.LinearTranslatorChildren` | src/app/SAM.ts:1952-1955 | the fields of `new LinearTranslator()` hold no node, so none is shared |
| `SamDefaults.LinearTranslatorDefault` | src/app/SAM.ts:1952-1955 | a `LinearTranslator` node holding `LinearTranslatorFields` of no nodes is what `new LinearTranslator()` builds: its fields conform to `LinearTranslator.input_type` |
| `SamDefaults.LinearTranslatorConforms` | src/app/SAM.ts:1957-1962 | the field map `new LinearTranslator()` stores has the key set of `LinearTranslator.input_type` and every value fits its descriptor: union fields `undefined`, numbers `null`, strings `''`, flags `false`, nodes of the named class, lists of one node |
| `SamUnionSlots.LinearTranslatorUnionFields` | src/app/SAM.ts:1957-1962 | `LinearTranslator.input_type` describes no tagged-union field |
| `SamUnionSlots.LinearTranslatorUnionSlots` | src/app/SAM.ts:1957-1962 | `UnionSlots` lists exactly the union fields of `LinearTranslator` |
| `SamInputType.InputTypeOfRangeTranslator` | src/app/SAM.ts:1975-1981 | `input_type(key)` on a `RangeTranslator` node is the switch of `RangeTranslator.input_type` |
| `SamInputType.RangeTranslatorInputType` | src/app/SAM.ts:1975-1981 | the switch of `RangeTranslator.input_type` as a table: the descriptor of each key it has a case for, `None` (`undefined`) for every other key |
| `SamDefaults.NewRangeTranslator` | src/app/SAM.ts:1969-1973 | `new RangeTranslator()` is a fresh node holding `insert` false, `read_table` `''`, `describe` false, the keys `RangeTranslator.input_type` describes; the fields are `RangeTranslatorFields()` and hold no node (`DefaultNode`) |
| `SamDefaults.RangeTranslatorFields` | src/app/SAM.ts:1969-1973 | the field map `new RangeTranslator()` stores, key by key as the constructor writes it, holding no node |
| `SamDefaults.RangeTranslatorChildren` | src/app/SAM.ts:1969-1973 | the fields of `new RangeTranslator()` hold no node, so none is shared |
| `SamDefaults.RangeTranslatorDefault` | src/app/SAM.ts:1969-1973 | a `RangeTranslator` node holding `RangeTranslatorFields` of no nodes is what `new RangeTranslator()` builds: its fields conform to `RangeTranslator.input_type` |
| `SamDefaults.RangeTranslatorConforms` | src/app/SAM.ts:1975-1981 | the field map `new RangeTranslator()` stores has the key set of `RangeTranslator.input_type` and every value fits its descriptor: union fields `undefined`, numbers `null`, strings `''`, flags `false`, nodes of the named class, lists of one node |
| `SamDefaults.RangeTranslatorKeys` | src/app/SAM.ts:1975-1981 | `RangeTranslator.input_type` describes exactly the keys `insert`, `read_table`, `describe` that `new RangeTranslator()` stores; every other key gives `undefined` |
| `SamDefaults.RangeTranslatorFieldsFit` | src/app/SAM.ts:1969-1973 | each value `new RangeTranslator()` stores fits the descriptor `RangeTranslator.input_type` gives its key |
| `SamUnionSlots.RangeTranslatorUnionFields` | src/app/SAM.ts:1975-1981 | `RangeTranslator.input_type` describes no tagged-union field |
| `SamUnionSlots.RangeTranslatorUnionSlots` | src/app/SAM.ts:1975-1981 | `UnionSlots` lists exactly the union fields of `RangeTranslator` |
| `SamInputType.InputTypeOfDataOutput` | src/app/SAM.ts:2007-2018 | `input_type(key)` on a `DataOutput` node is the switch of `DataOutput.input_type` |
| `SamInputType.DataOutputInputType` | src/app/SAM.ts:2007-2018 | the switch of `DataOutput.input_type` as a table: the descriptor of each key it has a case for, `None` (`undefined`) for every other key |
| `SamDefaults.NewDataOutput` | src/app/SAM.ts:1996-2005 | `new DataOutput()` is a fresh node holding `ascii` a new Ascii, `root` a new Root, `interfile` a new Interfile, `sinogram` a new Sinogram, `sinoaccel` a new Sinogram, `ecat7` a new Ecat7, `lmf` a new Lmf, `imageCT` a new ImageCT, the keys `DataOutput.input_type` describes; the fields are `DataOutputFields` of the nodes it builds, and each of those nodes is new, is the default of its own class, is not the node itself and is held at one place only (`DefaultNode`) |
| `SamDefaults.DataOutputFields` | src/app/SAM.ts:1996-2005 | the field map `new DataOutput()` stores, key by key as the constructor writes it, given the nodes it builds for `ascii`, `root`, `interfile`, `sinogram`, `sinoaccel`, `ecat7`, `lmf`, `imageCT` |
| `SamDefaults.DataOutputUnshared` | src/app/SAM.ts:1996-2005 | no node the fields of `new DataOutput()` hold is held by two fields or twice in one list |
| `SamDefaults.DataOutputDefault` | src/app/SAM.ts:1996-2005 | a `DataOutput` node holding `DataOutputFields` of nodes each the default of its class, not the node and distinct from one another is what `new DataOutput()` builds: its fields conform to `DataOutput.input_type`, and its child nodes are defaults of their own classes, held at one place only |
| `SamDefaults.DataOutputFresh` | src/app/SAM.ts:1996-2005 | `new DataOutput()` allocates everything it stores: the node it returns and the nodes it builds for `DataOutputFields` are all new, so no node that existed before is reachable from its fields |
| `SamDefaults.DataOutputConforms` | src/app/SAM.ts:2007-2018 | the field map `new DataOutput()` stores has the key set of `DataOutput.input_type` and every value fits its descriptor: union fields `undefined`, numbers `null`, strings `''`, flags `false`, nodes of the named class, lists of one node |
| `SamDefaults.DataOutputKeys` | src/app/SAM.ts:2007-2018 | `DataOutput.input_type` describes exactly the keys `ascii`, `root`, `interfile`, `sinogram`, `sinoaccel`, `ecat7`, `lmf`, `imageCT` that `new DataOutput()` stores; every other key gives `undefined` |
| `SamDefaults.DataOutputFieldsFit` | src/app/SAM.ts:1996-2005 | each value `new DataOutput()` stores fits the descriptor `DataOutput.input_type` gives its key |
| `SamUnionSlots.DataOutputUnionFields` | src/app/SAM.ts:2007-2018 | `DataOutput.input_type` describes no tagged-union field |
| `SamUnionSlots.DataOutputUnionSlots` | src/app/SAM.ts:2007-2018 | `UnionSlots` lists exactly the union fields of `DataOutput` |
| `SamInputType.InputTypeOfAscii` | src/app/SAM.ts:2042-2053 | `input_type(key)` on a `Ascii` node is the switch of `Ascii.input_type` |
| `SamInputType.AsciiInputType` | src/app/SAM.ts:2042-2053 | the switch of `Ascii.input_type` as a table: the descriptor of each key it has a case for, `None` (`undefined`) for every other key |
| `SamDefaults.NewAscii` | src/app/SAM.ts:2031-2040 | `new Ascii()` is a fresh node holding `enable` false, `file_name` `''`, `out_file_hits_flag` false, `out_file_singles_flag` false, `out_file_coincidences_flag` false, `coincidence_mask` [false, false, false, false, false, false], `single_mask` [false, false, false, false], `out_file_size_limit` null, the keys `Ascii.input_type` describes; the fields are `AsciiFields()` and hold no node (`DefaultNode`) |
| `SamDefaults.AsciiFields` | src/app/SAM.ts:2031-2040 | the field map `new Ascii()` stores, key by key as the constructor writes it, holding no node |
| `SamDefaults.AsciiChildren` | src/app/SAM.ts:2031-2040 | the fields of `new Ascii()` hold no node, so none is shared |
| `SamDefaults.AsciiDefault` | src/app/SAM.ts:2031-2040 | a `Ascii` node holding `AsciiFields` of no nodes is what `new Ascii()` builds: its fields conform to `Ascii.input_type` |
| `SamDefaults.AsciiConforms` | src/app/SAM.ts:2042-2053 | the field map `new Ascii()` stores has the key set of `Ascii.input_type` and every value fits its descriptor: union fields `undefined`, numbers `null`, strings `''`, flags `false`, nodes of the named class, lists of one node |
| `SamDefaults.AsciiKeys` | src/app/SAM.ts:2042-2053 | `Ascii.input_type` describes exactly the keys `enable`, `file_name`, `out_file_hits_flag`, `out_file_singles_flag`, `out_file_coincidences_flag`, `coincidence_mask`, `single_mask`, `out_file_size_limit` that `new Ascii()` stores; every other key gives `undefined` |
| `SamDefaults.AsciiFieldsFit` | src/app/SAM.ts:2031-2040 | each value `new Ascii()` stores fits the descriptor `Ascii.input_type` gives its key |
| `SamUnionSlots.AsciiUnionFields` | src/app/SAM.ts:2042-2053 | `Ascii.input_type` describes no tagged-union field |
| `SamUnionSlots.AsciiUnionSlots` | src/app/SAM.ts:2042-2053 | `UnionSlots` lists exactly the union fields of `Ascii` |
| `SamInputType.InputTypeOfRoot` | src/app/SAM.ts:2085-2100 | `input_type(key)` on a `Root` node is the switch of `Root.input_type` |
| `SamInputType.RootInputType` | src/app/SAM.ts:2085-2100 | the switch of `Root.input_type` as a table: the descriptor of each key it has a case for, `None` (`undefined`) for every other key |
| `SamDefaults.NewRoot` | src/app/SAM.ts:2070-2083 | `new Root()` is a fresh node holding `enable` false, `file_name` `''`, `root_hit_flag` false, `root_singles_flag` false, `root_coincidences_flag` false, `root_ntuple_flag` false, `out_file_singles_adder_flag` false, `out_file_singles_readout_flag` false, `out_file_singles_spblurring_flag` false, `out_file_singles_blurring_flag` false, `out_file_singles_thresholder_flag` false, `out_file_singles_upholder_flag` false, the keys `Root.input_type` describes; the fields are `RootFields()` and hold no node (`DefaultNode`) |
| `SamDefaults.RootFields` | src/app/SAM.ts:2070-2083 | the field map `new Root()` stores, key by key as the constructor writes it, holding no node |
| `SamDefaults.RootChildren` | src/app/SAM.ts:2070-2083 | the fields of `new Root()` hold no node, so none is shared |
| `SamDefaults.RootDefault` | src/app/SAM.ts:2070-2083 | a `Root` node holding `RootFields` of no nodes is what `new Root()` builds: its fields conform to `Root.input_type` |
| `SamDefaults.RootConforms` | src/app/SAM.ts:2085-2100 | the field map `new Root()` stores has the key set of `Root.input_type` and every value fits its descriptor: union fields `undefined`, numbers `null`, strings `''`, flags `false`, nodes of the named class, lists of one node |
| `SamDefaults.RootKeys` | src/app/SAM.ts:2085-2100 | `Root.input_type` describes exactly the keys `enable`, `file_name`, `root_hit_flag`, `root_singles_flag`, `root_coincidences_flag`, `root_ntuple_flag`, `out_file_singles_adder_flag`, `out_file_singles_readout_flag`, `out_file_singles_spblurring_flag`, `out_file_singles_blurring_flag`, `out_file_singles_thresholder_flag`, `out_file_singles_upholder_flag` that `new Root()` stores; every other key gives `undefined` |
| `SamDefaults.RootFieldsFit` | src/app/SAM.ts:2070-2083 | each value `new Root()` stores fits the descriptor `Root.input_type` gives its key |
| `SamDefaults.RootFieldsFit1` | src/app/SAM.ts:2070-2083 | the values `new Root()` stores in `enable`, `file_name`, `root_hit_flag`, `root_singles_flag`, `root_coincidences_flag` fit their descriptors |
| `SamDefaults.RootFieldsFit2` | src/app/SAM.ts:2070-2083 | the values `new Root()` stores in `root_ntuple_flag`, `out_file_singles_adder_flag`, `out_file_singles_readout_flag`, `out_file_singles_spblurring_flag`, `out_file_singles_blurring_flag` fit their descriptors |
| `SamDefaults.RootFieldsFit3` | src/app/SAM.ts:2070-2083 | the values `new Root()` stores in `out_file_singles_thresholder_flag`, `out_file_singles_upholder_flag` fit their descriptors |
| `SamUnionSlots.RootUnionFields` | src/app/SAM.ts:2085-2100 | `Root.input_type` describes no tagged-union field |
| `SamUnionSlots.RootUnionSlots` | src/app/SAM.ts:2085-2100 | `UnionSlots` lists exactly the union fields of `Root` |
| `SamInputType.InputTypeOfInterfile` | src/app/SAM.ts:2118-2126 | `input_type(key)` on a `Interfile` node is the switch of `Interfile.input_type` |
| `SamInputType.InterfileInputType` | src/app/SAM.ts:2118-2126 | the switch of `Interfile.input_type` as a table: the descriptor of each key it has a case for, `None` (`undefined`) for every other key |
| `SamDefaults.NewInterfile` | src/app/SAM.ts:2110-2116 | `new Interfile()` is a fresh node holding `enable` false, `file_name` `''`, `projection_plane` `''`, `pixel_size` [a new Value, a new Value], `pixel_number` [null, null], the keys `Interfile.input_type` describes; the fields are `InterfileFields` of the nodes it builds, and each of those nodes is new, is the default of its own class, is not the node itself and is held at one place only (`DefaultNode`) |
| `SamDefaults.InterfileFields` | src/app/SAM.ts:2110-2116 | the field map `new Interfile()` stores, key by key as the constructor writes it, given the nodes it builds for `pixel_size` |
| `SamDefaults.InterfileUnshared` | src/app/SAM.ts:2110-2116 | no node the fields of `new Interfile()` hold is held by two fields or twice in one list |
| `SamDefaults.InterfileDefault` | src/app/SAM.ts:2110-2116 | a `Interfile` node holding `InterfileFields` of nodes each the default of its class, not the node and distinct from one another is what `new Interfile()` builds: its fields conform to `Interfile.input_type`, and its child nodes are defaults of their own classes, held at one place only |
| `SamDefaults.InterfileFresh` | src/app/SAM.ts:2110-2116 | `new Interfile()` allocates everything it stores: the node it returns and the nodes it builds for `InterfileFields` are all new, so no node that existed before is reachable from its fields |
| `SamDefaults.InterfileConforms` | src/app/SAM.ts:2118-2126 | the field map `new Interfile()` stores has the key set of `Interfile.input_type` and every value fits its descriptor: union fields `undefined`, numbers `null`, strings `''`, flags `false`, nodes of the named class, lists of one node |
| `SamDefaults.InterfileKeys` | src/app/SAM.ts:2118-2126 | `Interfile.input_type` describes exactly the keys `enable`, `file_name`, `projection_plane`, `pixel_size`, `pixel_number` that `new Interfile()` stores; every other key gives `undefined` |
| `SamDefaults.InterfileFieldsFit` | src/app/SAM.ts:2110-2116 | each value `new Interfile()` stores fits the descriptor `Interfile.input_type` gives its key |
| `SamUnionSlots.InterfileUnionFields` | src/app/SAM.ts:2118-2126 | `Interfile.input_type` describes no tagged-union field |
| `SamUnionSlots.InterfileUnionSlots` | src/app/SAM.ts:2118-2126 | `UnionSlots` lists exactly the union fields of `Interfile` |
| `SamInputType.InputTypeOfSinogram` | src/app/SAM.ts:2144-2152 | `input_type(key)` on a `Sinogram` node is the switch of `Sinogram.input_type` |
| `SamInputType.SinogramInputType` | src/app/SAM.ts:2144-2152 | the switch of `Sinogram.input_type` as a table: the descriptor of each key it has a case for, `None` (`undefined`) for every other key |
| `SamDefaults.NewSinogram` | src/app/SAM.ts:2136-2142 | `new Sinogram()` is a fresh node holding `enable` false, `file_name` `''`, `radial_bins` null, `trues_only` false, `raw_output_enable` false, the keys `Sinogram.input_type` describes; the fields are `SinogramFields()` and hold no node (`DefaultNode`) |
| `SamDefaults.SinogramFields` | src/app/SAM.ts:2136-2142 | the field map `new Sinogram()` stores, key by key as the constructor writes it, holding no node |
| `SamDefaults.SinogramChildren` | src/app/SAM.ts:2136-2142 | the fields of `new Sinogram()` hold no node, so none is shared |
| `SamDefaults.SinogramDefault` | src/app/SAM.ts:2136-2142 | a `Sinogram` node holding `SinogramFields` of no nodes is what `new Sinogram()` builds: its fields conform to `Sinogram.input_type` |
| `SamDefaults.SinogramConforms` | src/app/SAM.ts:2144-2152 | the field map `new Sinogram()` stores has the key set of `Sinogram.input_type` and every value fits its descriptor: union fields `undefined`, numbers `null`, strings `''`, flags `false`, nodes of the named class, lists of one node |
| `SamDefaults.SinogramKeys` | src/app/SAM.ts:2144-2152 | `Sinogram.input_type` describes exactly the keys `enable`, `file_name`, `radial_bins`, `trues_only`, `raw_output_enable` that `new Sinogram()` stores; every other key gives `undefined` |
| `SamDefaults.SinogramFieldsFit` | src/app/SAM.ts:2136-2142 | each value `new Sinogram()` stores fits the descriptor `Sinogram.input_type` gives its key |
| `SamUnionSlots.SinogramUnionFields` | src/app/SAM.ts:2144-2152 | `Sinogram.input_type` describes no tagged-union field |
| `SamUnionSlots.SinogramUnionSlots` | src/app/SAM.ts:2144-2152 | `UnionSlots` lists exactly the union fields of `Sinogram` |
| `SamInputType.InputTypeOfEcat7` | src/app/SAM.ts:2172-2181 | `input_type(key)` on a `Ecat7` node is the switch of `Ecat7.input_type` |
| `SamInputType.Ecat7InputType` | src/app/SAM.ts:2172-2181 | the switch of `Ecat7.input_type` as a table: the descriptor of each key it has a case for, `None` (`undefined`) for every other key |
| `SamDefaults.NewEcat7` | src/app/SAM.ts:2163-2170 | `new Ecat7()` is a fresh node holding `enable` false, `file_name` `''`, `maxringdiff` null, `span` null, `mashing` null, `system` null, the keys `Ecat7.input_type` describes; the fields are `Ecat7Fields()` and hold no node (`DefaultNode`) |
| `SamDefaults.Ecat7Fields` | src/app/SAM.ts:2163-2170 | the field map `new Ecat7()` stores, key by key as the constructor writes it, holding no node |
| `SamDefaults.Ecat7Children` | src/app/SAM.ts:2163-2170 | the fields of `new Ecat7()` hold no node, so none is shared |
| `SamDefaults.Ecat7Default` | src/app/SAM.ts:2163-2170 | a `Ecat7` node holding `Ecat7Fields` of no nodes is what `new Ecat7()` builds: its fields conform to `Ecat7.input_type` |
| `SamDefaults.Ecat7Conforms` | src/app/SAM.ts:2172-2181 | the field map `new Ecat7()` stores has the key set of `Ecat7.input_type` and every value fits its descriptor: union fields `undefined`, numbers `null`, strings `''`, flags `false`, nodes of the named class, lists of one node |
| `SamDefaults.Ecat7Keys` | src/app/SAM.ts:2172-2181 | `Ecat7.input_type` describes exactly the keys `enable`, `file_name`, `maxringdiff`, `span`, `mashing`, `system` that `new Ecat7()` stores; every other key gives `undefined` |
| `SamDefaults.Ecat7FieldsFit` | src/app/SAM.ts:2163-2170 | each value `new Ecat7()` stores fits the descriptor `Ecat7.input_type` gives its key |
| `SamUnionSlots.Ecat7UnionFields` | src/app/SAM.ts:2172-2181 | `Ecat7.input_type` describes no tagged-union field |
| `SamUnionSlots.Ecat7UnionSlots` | src/app/SAM.ts:2172-2181 | `UnionSlots` lists exactly the union fields of `Ecat7` |
| `SamInputType.InputTypeOfLmf` | src/app/SAM.ts:2225-2246 | `input_type(key)` on a `Lmf` node is the switch of `Lmf.input_type` |
| `SamInputType.LmfInputType` | src/app/SAM.ts:2225-2246 | the switch of `Lmf.input_type` as a table: the descriptor of each key it has a case for, `None` (`undefined`) for every other key |
| `SamDefaults.NewLmf` | src/app/SAM.ts:2204-2223 | `new Lmf()` is a fresh node holding `enable` false, `file_name` `''`, `detector_id_bool` false, `energy_bool` false, `gantry_axial_pos_bool` false, `gantry_angular_pos_bool` false, `source_pos_bool` false, `neighbour_bool` false, `neighbourhood_order` false, `coincidence_bool` false, `gate_digi_bool` false, `compton_bool` false, `compton_detector_bool` false, `source_id_bool` false, `source_xyzpos_bool` false, `global_xyzpos_bool` false, `event_id_bool` false, `run_id_bool` false, the keys `Lmf.input_type` describes; the fields are `LmfFields()` and hold no node (`DefaultNode`) |
| `SamDefaults.LmfFields` | src/app/SAM.ts:2204-2223 | the field map `new Lmf()` stores, key by key as the constructor writes it, holding no node |
| `SamDefaults.LmfChildren` | src/app/SAM.ts:2204-2223 | the fields of `new Lmf()` hold no node, so none is shared |
| `SamDefaults.LmfDefault` | src/app/SAM.ts:2204-2223 | a `Lmf` node holding `LmfFields` of no nodes is what `new Lmf()` builds: its fields conform to `Lmf.input_type` |
| `SamDefaults.LmfConforms` | src/app/SAM.ts:2225-2246 | the field map `new Lmf()` stores has the key set of `Lmf.input_type` and every value fits its descriptor: union fields `undefined`, numbers `null`, strings `''`, flags `false`, nodes of the named class, lists of one node |
| `SamDefaults.LmfKeys` | src/app/SAM.ts:2225-2246 | `Lmf.input_type` describes exactly the keys `enable`, `file_name`, `detector_id_bool`, `energy_bool`, `gantry_axial_pos_bool`, `gantry_angular_pos_bool`, `source_pos_bool`, `neighbour_bool`, `neighbourhood_order`, `coincidence_bool`, `gate_digi_bool`, `compton_bool`, `compton_detector_bool`, `source_id_bool`, `source_xyzpos_bool`, `global_xyzpos_bool`, `event_id_bool`, `run_id_bool` that `new Lmf()` stores; every other key gives `undefined` |
| `SamDefaults.LmfFieldsFit` | src/app/SAM.ts:2204-2223 | each value `new Lmf()` stores fits the descriptor `Lmf.input_type` gives its key |
| `SamDefaults.LmfFieldsFit1` | src/app/SAM.ts:2204-2223 | the values `new Lmf()` stores in `enable`, `file_name`, `detector_id_bool`, `energy_bool`, `gantry_axial_pos_bool` fit their descriptors |
| `SamDefaults.LmfFieldsFit2` | src/app/SAM.ts:2204-2223 | the values `new Lmf()` stores in `gantry_angular_pos_bool`, `source_pos_bool`, `neighbour_bool`, `neighbourhood_order`, `coincidence_bool` fit their descriptors |
| `SamDefaults.LmfFieldsFit3` | src/app/SAM.ts:2204-2223 | the values `new Lmf()` stores in `gate_digi_bool`, `compton_bool`, `compton_detector_bool`, `source_id_bool`, `source_xyzpos_bool` fit their descriptors |
| `SamDefaults.LmfFieldsFit4` | src/app/SAM.ts:2204-2223 | the values `new Lmf()` stores in `global_xyzpos_bool`, `event_id_bool`, `run_id_bool` fit their descriptors |
| `SamUnionSlots.LmfUnionFields` | src/app/SAM.ts:2225-2246 | `Lmf.input_type` describes no tagged-union field |
| `SamUnionSlots.LmfUnionSlots` | src/app/SAM.ts:2225-2246 | `UnionSlots` lists exactly the union fields of `Lmf` |
| `SamInputType.InputTypeOfImageCT` | src/app/SAM.ts:2264-2272 | `input_type(key)` on a `ImageCT` node is the switch of `ImageCT.input_type` |
| `SamInputType.ImageCTInputType` | src/app/SAM.ts:2264-2272 | the switch of `ImageCT.input_type` as a table: the descriptor of each key it has a case for, `None` (`undefined`) for every other key |
| `SamDefaults.NewImageCT` | src/app/SAM.ts:2256-2262 | `new ImageCT()` is a fresh node holding `enable` false, `file_name` `''`, `num_pixel` [null, null], `vrt_factor` null, `start_seed` null, the keys `ImageCT.input_type` describes; the fields are `ImageCTFields()` and hold no node (`DefaultNode`) |
| `SamDefaults.ImageCTFields` | src/app/SAM.ts:2256-2262 | the field map `new ImageCT()` stores, key by key as the constructor writes it, holding no node |
| `SamDefaults.ImageCTChildren` | src/app/SAM.ts:2256-2262 | the fields of `new ImageCT()` hold no node, so none is shared |
| `SamDefaults.ImageCTDefault` | src/app/SAM.ts:2256-2262 | a `ImageCT` node holding `ImageCTFields` of no nodes is what `new ImageCT()` builds: its fields conform to `ImageCT.input_type` |
| `SamDefaults.ImageCTConforms` | src/app/SAM.ts:2264-2272 | the field map `new ImageCT()` stores has the key set of `ImageCT.input_type` and every value fits its descriptor: union fields `undefined`, numbers `null`, strings `''`, flags `false`, nodes of the named class, lists of one node |
| `SamDefaults.ImageCTKeys` | src/app/SAM.ts:2264-2272 | `ImageCT.input_type` describes exactly the keys `enable`, `file_name`, `num_pixel`, `vrt_factor`, `start_seed` that `new ImageCT()` stores; every other key gives `undefined` |
| `SamDefaults.ImageCTFieldsFit` | src/app/SAM.ts:2256-2262 | each value `new ImageCT()` stores fits the descriptor `ImageCT.input_type` gives its key |
| `SamUnionSlots.ImageCTUnionFields` | src/app/SAM.ts:2264-2272 | `ImageCT.input_type` describes no tagged-union field |
| `SamUnionSlots.ImageCTUnionSlots` | src/app/SAM.ts:2264-2272 | `UnionSlots` lists exactly the union fields of `ImageCT` |
| `SamInputType.InputTypeOfAcquisition` | src/app/SAM.ts:2298-2309 | `input_type(key)` on a `Acquisition` node is the switch of `Acquisition.input_type` |
| `SamInputType.AcquisitionInputType` | src/app/SAM.ts:2298-2309 | the switch of `Acquisition.input_type` as a table: the descriptor of each key it has a case for, `None` (`undefined`) for every other key |
| `SamDefaults.NewAcquisition` | src/app/SAM.ts:2287-2296 | `new Acquisition()` is a fresh node holding `total_number_of_primaries` null, `number_of_primaries_perrun` null, `time_slice` undefined, `time_start` a new Value, `time_stop` a new Value, `engine_seed` undefined, `engine_name` `''`, `verbose` null, the keys `Acquisition.input_type` describes; the fields are `AcquisitionFields` of the nodes it builds, and each of those nodes is new, is the default of its own class, is not the node itself and is held at one place only (`DefaultNode`) |
| `SamDefaults.AcquisitionFields` | src/app/SAM.ts:2287-2296 | the field map `new Acquisition()` stores, key by key as the constructor writes it, given the nodes it builds for `time_start`, `time_stop` |
| `SamDefaults.AcquisitionUnshared` | src/app/SAM.ts:2287-2296 | no node the fields of `new Acquisition()` hold is held by two fields or twice in one list |
| `SamDefaults.AcquisitionDefault` | src/app/SAM.ts:2287-2296 | a `Acquisition` node holding `AcquisitionFields` of nodes each the default of its class, not the node and distinct from one another is what `new Acquisition()` builds: its fields conform to `Acquisition.input_type`, and its child nodes are defaults of their own classes, held at one place only |
| `SamDefaults.AcquisitionFresh` | src/app/SAM.ts:2287-2296 | `new Acquisition()` allocates everything it stores: the node it returns and the nodes it builds for `AcquisitionFields` are all new, so no node that existed before is reachable from its fields |
| `SamDefaults.AcquisitionConforms` | src/app/SAM.ts:2298-2309 | the field map `new Acquisition()` stores has the key set of `Acquisition.input_type` and every value fits its descriptor: union fields `undefined`, numbers `null`, strings `''`, flags `false`, nodes of the named class, lists of one node |
| `SamDefaults.AcquisitionKeys` | src/app/SAM.ts:2298-2309 | `Acquisition.input_type` describes exactly the keys `total_number_of_primaries`, `number_of_primaries_perrun`, `time_slice`, `time_start`, `time_stop`, `engine_seed`, `engine_name`, `verbose` that `new Acquisition()` stores; every other key gives `undefined` |
| `SamDefaults.AcquisitionFieldsFit` | src/app/SAM.ts:2287-2296 | each value `new Acquisition()` stores fits the descriptor `Acquisition.input_type` gives its key |
| `SamUnionSlots.AcquisitionUnionFields` | src/app/SAM.ts:2298-2309 | the tagged-union fields of `Acquisition` are exactly `time_slice`, `engine_seed` |
| `SamUnionSlots.AcquisitionUnionSlots` | src/app/SAM.ts:2298-2309 | `UnionSlots` lists exactly the union fields of `Acquisition` |
| `SamInputType.InputTypeOfMaterialDatabase` | src/app/SAM.ts:2338-2342 | `input_type(key)` on a `MaterialDatabase` node is the switch of `MaterialDatabase.input_type` |
| `SamInputType.MaterialDatabaseInputType` | src/app/SAM.ts:2338-2342 | the switch of `MaterialDatabase.input_type` as a table: the descriptor of each key it has a case for, `None` (`undefined`) for every other key |
| `SamDefaults.NewMaterialDatabase` | src/app/SAM.ts:2334-2336 | `new MaterialDatabase()` is a fresh node holding `path` `''`, the keys `MaterialDatabase.input_type` describes; the fields are `MaterialDatabaseFields()` and hold no node (`DefaultNode`) |
| `SamDefaults.MaterialDatabaseFields` | src/app/SAM.ts:2334-2336 | the field map `new MaterialDatabase()` stores, key by key as the constructor writes it, holding no node |
| `SamDefaults.MaterialDatabaseChildren` | src/app/SAM.ts:2334-2336 | the fields of `new MaterialDatabase()` hold no node, so none is shared |
| `SamDefaults.MaterialDatabaseDefault` | src/app/SAM.ts:2334-2336 | a `MaterialDatabase` node holding `MaterialDatabaseFields` of no nodes is what `new MaterialDatabase()` builds: its fields conform to `MaterialDatabase.input_type` |
| `SamDefaults.MaterialDatabaseConforms` | src/app/SAM.ts:2338-2342 | the field map `new MaterialDatabase()` stores has the key set of `MaterialDatabase.input_type` and every value fits its descriptor: union fields `undefined`, numbers `null`, strings `''`, flags `false`, nodes of the named class, lists of one node |
| `SamUnionSlots.MaterialDatabaseUnionFields` | src/app/SAM.ts:2338-2342 | `MaterialDatabase.input_type` describes no tagged-union field |
| `SamUnionSlots.MaterialDatabaseUnionSlots` | src/app/SAM.ts:2338-2342 | `UnionSlots` lists exactly the union fields of `MaterialDatabase` |
| `SamUnionSlots.UnionSlotsExactly` | src/app/SAM.ts:12-19 | a field of any class is a tagged union exactly when it is one of the thirteen `UnionSlots` |
| `SamUnionSlots.UnionFieldsHaveChooser` | src/app/SAM.ts:21-44 | a class has `choose_subclass` exactly when it owns a tagged-union field |
| `SamChoose.VariantNamed` | src/app/SAM.ts:21-44 | the variant a name selects is an entry of the union list carrying that name |
| `SamChoose.VariantNames` | src/app/SAM.ts:15-16 | at most one name per entry of a union list |
| `SamChoose.VariantNamesSelect` | src/app/SAM.ts:21-44 | a name is among the variant names exactly when it selects a variant |
| `SamChoose.VariantNamesAllListed` | src/app/SAM.ts:268-270 | a union list without an `undefined` entry has one name per entry, in order |
| `SamChoose.ChoosesListed` | src/app/SAM.ts:21-44 | a table that chooses every listed variant by name chooses variant `t` for the name of `t` |
| `SamChoose.SlotAgreement` | src/app/SAM.ts:21-44 | a switch that chooses every listed variant by name, changes the field for every name and chooses only listed names makes exactly the choice the descriptor calls for |
| `SamChoose.ChooseTableIsSamChoice` | src/app/SAM.ts:21-44 | for every class with `choose_subclass`, key and name, the switch makes the choice derived from `input_type`: the named variant, `undefined` for an unlisted name, nothing for a key that is not a union |
| `SamChoose.SlotFacts` | src/app/SAM.ts:21-44 | every union field of a class with `choose_subclass` is chosen by its variants' names and only by them |
| `SamChoose.ChooseSubclass` | src/app/SAM.ts:21-44 | `n.choose_subclass(key, name)` on any class that has it changes only field `key`, to `undefined` or a fresh default of the variant `input_type` lists under that name; a non-union key changes nothing |
| `SamChoose.ChooseTable` | src/app/SAM.ts:21-44 | the switch of `c.choose_subclass` for each of the nine classes that have the method |
| `SamChoose.SamChoice` | src/app/SAM.ts:12-44 | the choice `input_type(key)` calls for when `name` is picked: the variant of the union with that name, `undefined` for any other name, no change for a key that is not a union |
| `SamChoose.PutNewScanner` | src/app/SAM.ts:25 | `this[key] = new Scanner()` (the case of `choose_subclass` for `scanner`): only field `key` changes, and it holds a new default of `Scanner` whose own nodes are new defaults held once (`DefaultNode`) |
| `SamChoose.PutNewCTscanner` | src/app/SAM.ts:26 | `this[key] = new CTscanner()` (the case of `choose_subclass` for `scanner`): only field `key` changes, and it holds a new default of `CTscanner` whose own nodes are new defaults held once (`DefaultNode`) |
| `SamChoose.PutNewCylindricalPET` | src/app/SAM.ts:27 | `this[key] = new CylindricalPET()` (the case of `choose_subclass` for `scanner`): only field `key` changes, and it holds a new default of `CylindricalPET` whose own nodes are new defaults held once (`DefaultNode`) |
| `SamChoose.PutNewCPET` | src/app/SAM.ts:28 | `this[key] = new CPET()` (the case of `choose_subclass` for `scanner`): only field `key` changes, and it holds a new default of `CPET` whose own nodes are new defaults held once (`DefaultNode`) |
| `SamChoose.PutNewECAT` | src/app/SAM.ts:29 | `this[key] = new ECAT()` (the case of `choose_subclass` for `scanner`): only field `key` changes, and it holds a new default of `ECAT` whose own nodes are new defaults held once (`DefaultNode`) |
| `SamChoose.PutNewECATAccel` | src/app/SAM.ts:30 | `this[key] = new ECATAccel()` (the case of `choose_subclass` for `scanner`): only field `key` changes, and it holds a new default of `ECATAccel` whose own nodes are new defaults held once (`DefaultNode`) |
| `SamChoose.PutNewOPET` | src/app/SAM.ts:31 | `this[key] = new OPET()` (the case of `choose_subclass` for `scanner`): only field `key` changes, and it holds a new default of `OPET` whose own nodes are new defaults held once (`DefaultNode`) |
| `SamChoose.PutNewSPECThead` | src/app/SAM.ts:32 | `this[key] = new SPECThead()` (the case of `choose_subclass` for `scanner`): only field `key` changes, and it holds a new default of `SPECThead` whose own nodes are new defaults held once (`DefaultNode`) |
| `SamChoose.PutNewVolume` | src/app/SAM.ts:38 | `this[key] = new Volume()` (the case of `choose_subclass` for `phantom`): only field `key` changes, and it holds a new default of `Volume` whose own nodes are new defaults held once (`DefaultNode`) |
| `SamChoose.PutNewVoxelizedPhantom` | src/app/SAM.ts:39 | `this[key] = new VoxelizedPhantom()` (the case of `choose_subclass` for `phantom`): only field `key` changes, and it holds a new default of `VoxelizedPhantom` whose own nodes are new defaults held once (`DefaultNode`) |
| `SamChoose.PutNewBox` | src/app/SAM.ts:281 | `this[key] = new Box()` (the case of `choose_subclass` for `shape`): only field `key` changes, and it holds a new default of `Box` whose own nodes are new defaults held once (`DefaultNode`) |
| `SamChoose.PutNewSphere` | src/app/SAM.ts:282 | `this[key] = new Sphere()` (the case of `choose_subclass` for `shape`): only field `key` changes, and it holds a new default of `Sphere` whose own nodes are new defaults held once (`DefaultNode`) |
| `SamChoose.PutNewCylinder` | src/app/SAM.ts:283 | `this[key] = new Cylinder()` (the case of `choose_subclass` for `shape`): only field `key` changes, and it holds a new default of `Cylinder` whose own nodes are new defaults held once (`DefaultNode`) |
| `SamChoose.PutNewCone` | src/app/SAM.ts:284 | `this[key] = new Cone()` (the case of `choose_subclass` for `shape`): only field `key` changes, and it holds a new default of `Cone` whose own nodes are new defaults held once (`DefaultNode`) |
| `SamChoose.PutNewEllipsoid` | src/app/SAM.ts:285 | `this[key] = new Ellipsoid()` (the case of `choose_subclass` for `shape`): only field `key` changes, and it holds a new default of `Ellipsoid` whose own nodes are new defaults held once (`DefaultNode`) |
| `SamChoose.PutNewEllipticalTube` | src/app/SAM.ts:286 | `this[key] = new EllipticalTube()` (the case of `choose_subclass` for `shape`): only field `key` changes, and it holds a new default of `EllipticalTube` whose own nodes are new defaults held once (`DefaultNode`) |
| `SamChoose.PutNewTessellated` | src/app/SAM.ts:287 | `this[key] = new Tessellated()` (the case of `choose_subclass` for `shape`): only field `key` changes, and it holds a new default of `Tessellated` whose own nodes are new defaults held once (`DefaultNode`) |
| `SamChoose.PutNewTetMeshBox` | src/app/SAM.ts:288 | `this[key] = new TetMeshBox()` (the case of `choose_subclass` for `shape`): only field `key` changes, and it holds a new default of `TetMeshBox` whose own nodes are new defaults held once (`DefaultNode`) |
| `SamChoose.PutNewTRPD` | src/app/SAM.ts:289 | `this[key] = new TRPD()` (the case of `choose_subclass` for `shape`): only field `key` changes, and it holds a new default of `TRPD` whose own nodes are new defaults held once (`DefaultNode`) |
| `SamChoose.PutNewHexagone` | src/app/SAM.ts:290 | `this[key] = new Hexagone()` (the case of `choose_subclass` for `shape`): only field `key` changes, and it holds a new default of `Hexagone` whose own nodes are new defaults held once (`DefaultNode`) |
| `SamChoose.PutNewWedge` | src/app/SAM.ts:291 | `this[key] = new Wedge()` (the case of `choose_subclass` for `shape`): only field `key` changes, and it holds a new default of `Wedge` whose own nodes are new defaults held once (`DefaultNode`) |
| `SamChoose.PutNewInverseSquareLaw` | src/app/SAM.ts:1203 | `this[key] = new InverseSquareLaw()` (the case of `choose_subclass` for `law`): only field `key` changes, and it holds a new default of `InverseSquareLaw` whose own nodes are new defaults held once (`DefaultNode`) |
| `SamChoose.PutNewLinearLaw` | src/app/SAM.ts:1204 | `this[key] = new LinearLaw()` (the case of `choose_subclass` for `law`): only field `key` changes, and it holds a new default of `LinearLaw` whose own nodes are new defaults held once (`DefaultNode`) |
| `SamChoose.PutNewFlat` | src/app/SAM.ts:1581 | `this[key] = new Flat()` (the case of `choose_subclass` for `deltaT_distribution`, `energy_distribution`, `Level1`, `Level2`): only field `key` changes, and it holds a new default of `Flat` whose own nodes are new defaults held once (`DefaultNode`) |
| `SamChoose.PutNewGaussian` | src/app/SAM.ts:1582 | `this[key] = new Gaussian()` (the case of `choose_subclass` for `deltaT_distribution`, `energy_distribution`, `Level1`, `Level2`): only field `key` changes, and it holds a new default of `Gaussian` whose own nodes are new defaults held once (`DefaultNode`) |
| `SamChoose.PutNewExponential` | src/app/SAM.ts:1583 | `this[key] = new Exponential()` (the case of `choose_subclass` for `deltaT_distribution`, `energy_distribution`, `Level1`, `Level2`): only field `key` changes, and it holds a new default of `Exponential` whose own nodes are new defaults held once (`DefaultNode`) |
| `SamChoose.PutNewManual` | src/app/SAM.ts:1584 | `this[key] = new Manual()` (the case of `choose_subclass` for `deltaT_distribution`, `energy_distribution`, `Level1`, `Level2`): only field `key` changes, and it holds a new default of `Manual` whose own nodes are new defaults held once (`DefaultNode`) |
| `SamChoose.PutNewFile` | src/app/SAM.ts:1585 | `this[key] = new File()` (the case of `choose_subclass` for `deltaT_distribution`, `energy_distribution`, `Level1`, `Level2`): only field `key` changes, and it holds a new default of `File` whose own nodes are new defaults held once (`DefaultNode`) |
| `SamChoose.PutNewSource` | src/app/SAM.ts:1793 | `this[key] = new Source()` (the case of `choose_subclass` for `choose_source`): only field `key` changes, and it holds a new default of `Source` whose own nodes are new defaults held once (`DefaultNode`) |
| `SamChoose.PutNewVoxelizedSource` | src/app/SAM.ts:1794 | `this[key] = new VoxelizedSource()` (the case of `choose_subclass` for `choose_source`): only field `key` changes, and it holds a new default of `VoxelizedSource` whose own nodes are new defaults held once (`DefaultNode`) |
| `SamChoose.PutNewLinearTranslator` | src/app/SAM.ts:1932 | `this[key] = new LinearTranslator()` (the case of `choose_subclass` for `insert_translator`): only field `key` changes, and it holds a new default of `LinearTranslator` whose own nodes are new defaults held once (`DefaultNode`) |
| `SamChoose.PutNewRangeTranslator` | src/app/SAM.ts:1933 | `this[key] = new RangeTranslator()` (the case of `choose_subclass` for `insert_translator`): only field `key` changes, and it holds a new default of `RangeTranslator` whose own nodes are new defaults held once (`DefaultNode`) |
| `SamChoose.PutNewValue` | src/app/SAM.ts:2315 | `this[key] = new Value()` (the case of `choose_subclass` for `time_slice`): only field `key` changes, and it holds a new default of `Value` whose own nodes are new defaults held once (`DefaultNode`) |
| `SamChoose.GeometryChooseSubclass` | src/app/SAM.ts:21-44 | `Geometry.choose_subclass(key, name)` changes only field `key`, as its switch says; a chosen node variant is a fresh default of that class |
| `SamChoose.GeometryChoice` | src/app/SAM.ts:21-44 | the switches of `Geometry.choose_subclass` as a table: for each union key and name, the variant stored (`Chosen`), `undefined` for a name with no case (`Cleared`), and no change for a key with no case (`Unchanged`) |
| `SamChoose.GeometryChoiceAgrees` | src/app/SAM.ts:21-44 | for every key and name, the switch of `Geometry.choose_subclass` makes the choice that `Geometry.input_type` calls for |
| `SamChoose.GeometrySlotFacts` | src/app/SAM.ts:21-44 | each union field of `Geometry` is chosen by its variants' names and only by them |
| `SamChoose.GeometryScannerVariantNames` | src/app/SAM.ts:15-16 | the names `Geometry.input_type('scanner')` lists are `Scanner`, `CTscanner`, `CylindricalPET`, `CPET`, `ECAT`, `ECATAccel`, `OPET`, `SPECThead`, in that order |
| `SamChoose.GeometryScannerChoosesAll` | src/app/SAM.ts:23-33 | every variant `Geometry.input_type('scanner')` lists is chosen by its own name |
| `SamChoose.GeometryScannerNeverUnchanged` | src/app/SAM.ts:23-33 | choosing on `scanner` changes the field whatever the name: the inner switch has a default |
| `SamChoose.GeometryScannerChoosesOnlyListed` | src/app/SAM.ts:23-33 | only the listed names `Scanner`, `CTscanner`, `CylindricalPET`, `CPET`, `ECAT`, `ECATAccel`, `OPET`, `SPECThead` choose a variant for `scanner`; every other name clears it to `undefined` |
| `SamChoose.GeometryScannerVariants` | src/app/SAM.ts:15-33 | the switch on `Geometry.scanner` and its descriptor agree: the variants are chosen by their names, every other name clears the field |
| `SamChoose.GeometryPhantomVariantNames` | src/app/SAM.ts:17 | the names `Geometry.input_type('phantom')` lists are `Volume`, `VoxelizedPhantom`, in that order |
| `SamChoose.GeometryPhantomChoosesAll` | src/app/SAM.ts:36-40 | every variant `Geometry.input_type('phantom')` lists is chosen by its own name |
| `SamChoose.GeometryPhantomNeverUnchanged` | src/app/SAM.ts:36-40 | choosing on `phantom` changes the field whatever the name: the inner switch has a default |
| `SamChoose.GeometryPhantomChoosesOnlyListed` | src/app/SAM.ts:36-40 | only the listed names `Volume`, `VoxelizedPhantom` choose a variant for `phantom`; every other name clears it to `undefined` |
| `SamChoose.GeometryPhantomVariants` | src/app/SAM.ts:17-40 | the switch on `Geometry.phantom` and its descriptor agree: the variants are chosen by their names, every other name clears the field |
| `SamChoose.VolumeChooseSubclass` | src/app/SAM.ts:277-296 | `Volume.choose_subclass(key, name)` changes only field `key`, as its switch says; a chosen node variant is a fresh default of that class |
| `SamChoose.VolumeChoice` | src/app/SAM.ts:277-296 | the switches of `Volume.choose_subclass` as a table: for each union key and name, the variant stored (`Chosen`), `undefined` for a name with no case (`Cleared`), and no change for a key with no case (`Unchanged`) |
| `SamChoose.VolumeChoiceAgrees` | src/app/SAM.ts:277-296 | for every key and name, the switch of `Volume.choose_subclass` makes the choice that `Volume.input_type` calls for |
| `SamChoose.VolumeSlotFacts` | src/app/SAM.ts:277-296 | each union field of `Volume` is chosen by its variants' names and only by them |
| `SamChoose.VolumeShapeVariantNames` | src/app/SAM.ts:268-270 | the names `Volume.input_type('shape')` lists are `Box`, `Sphere`, `Cylinder`, `Cone`, `Ellipsoid`, `EllipticalTube`, `Tessellated`, `TetMeshBox`, `TRPD`, `Hexagone`, `Wedge`, in that order |
| `SamChoose.VolumeShapeVariantNamesAt` | src/app/SAM.ts:268-270 | any list holding the variants of `Volume.shape` entry by entry has those names |
| `SamChoose.VolumeShapeChoosesAll` | src/app/SAM.ts:279-292 | every variant `Volume.input_type('shape')` lists is chosen by its own name |
| `SamChoose.VolumeShapeChoosesFront` | src/app/SAM.ts:279-292 | the cases of `Volume.choose_subclass('shape', name)` for the first half of the names each choose the class they name |
| `SamChoose.VolumeShapeChoosesBack` | src/app/SAM.ts:279-292 | the cases of `Volume.choose_subclass('shape', name)` for the second half of the names each choose the class they name |
| `SamChoose.VolumeShapeNeverUnchanged` | src/app/SAM.ts:279-292 | choosing on `shape` changes the field whatever the name: the inner switch has a default |
| `SamChoose.VolumeShapeChoosesOnlyListed` | src/app/SAM.ts:279-292 | only the listed names `Box`, `Sphere`, `Cylinder`, `Cone`, `Ellipsoid`, `EllipticalTube`, `Tessellated`, `TetMeshBox`, `TRPD`, `Hexagone`, `Wedge` choose a variant for `shape`; every other name clears it to `undefined` |
| `SamChoose.VolumeShapeVariants` | src/app/SAM.ts:268-292 | the switch on `Volume.shape` and its descriptor agree: the variants are chosen by their names, every other name clears the field |
| `SamChoose.BlurringChooseSubclass` | src/app/SAM.ts:1199-1209 | `Blurring.choose_subclass(key, name)` changes only field `key`, as its switch says; a chosen node variant is a fresh default of that class |
| `SamChoose.BlurringChoice` | src/app/SAM.ts:1199-1209 | the switches of `Blurring.choose_subclass` as a table: for each union key and name, the variant stored (`Chosen`), `undefined` for a name with no case (`Cleared`), and no change for a key with no case (`Unchanged`) |
| `SamChoose.BlurringChoiceAgrees` | src/app/SAM.ts:1199-1209 | for every key and name, the switch of `Blurring.choose_subclass` makes the choice that `Blurring.input_type` calls for |
| `SamChoose.BlurringSlotFacts` | src/app/SAM.ts:1199-1209 | each union field of `Blurring` is chosen by its variants' names and only by them |
| `SamChoose.BlurringLawVariantNames` | src/app/SAM.ts:1188 | the names `Blurring.input_type('law')` lists are `InverseSquareLaw`, `LinearLaw`, in that order |
| `SamChoose.BlurringLawChoosesAll` | src/app/SAM.ts:1201-1205 | every variant `Blurring.input_type('law')` lists is chosen by its own name |
| `SamChoose.BlurringLawNeverUnchanged` | src/app/SAM.ts:1201-1205 | choosing on `law` changes the field whatever the name: the inner switch has a default |
| `SamChoose.BlurringLawChoosesOnlyListed` | src/app/SAM.ts:1201-1205 | only the listed names `InverseSquareLaw`, `LinearLaw` choose a variant for `law`; every other name clears it to `undefined` |
| `SamChoose.BlurringLawVariants` | src/app/SAM.ts:1188-1205 | the switch on `Blurring.law` and its descriptor agree: the variants are chosen by their names, every other name clears the field |
| `SamChoose.QuantumEfficiencyChooseSubclass` | src/app/SAM.ts:1386-1396 | `QuantumEfficiency.choose_subclass(key, name)` changes only field `key`, as its switch says; a chosen node variant is a fresh default of that class |
| `SamChoose.QuantumEfficiencyChoice` | src/app/SAM.ts:1386-1396 | the switches of `QuantumEfficiency.choose_subclass` as a table: for each union key and name, the variant stored (`Chosen`), `undefined` for a name with no case (`Cleared`), and no change for a key with no case (`Unchanged`) |
| `SamChoose.QuantumEfficiencyChoiceAgrees` | src/app/SAM.ts:1386-1396 | for every key and name, the switch of `QuantumEfficiency.choose_subclass` makes the choice that `QuantumEfficiency.input_type` calls for |
| `SamChoose.QuantumEfficiencySlotFacts` | src/app/SAM.ts:1386-1396 | each union field of `QuantumEfficiency` is chosen by its variants' names and only by them |
| `SamChoose.QuantumEfficiencyUniqueQeVariantNames` | src/app/SAM.ts:1382 | the names `QuantumEfficiency.input_type('unique_qe')` lists are `number`, `string`, in that order |
| `SamChoose.QuantumEfficiencyUniqueQeChoosesAll` | src/app/SAM.ts:1388-1392 | every variant `QuantumEfficiency.input_type('unique_qe')` lists is chosen by its own name |
| `SamChoose.QuantumEfficiencyUniqueQeNeverUnchanged` | src/app/SAM.ts:1388-1392 | choosing on `unique_qe` changes the field whatever the name: the inner switch has a default |
| `SamChoose.QuantumEfficiencyUniqueQeChoosesOnlyListed` | src/app/SAM.ts:1388-1392 | only the listed names `number`, `string` choose a variant for `unique_qe`; every other name clears it to `undefined` |
| `SamChoose.QuantumEfficiencyUniqueQeVariants` | src/app/SAM.ts:1382-1392 | the switch on `QuantumEfficiency.unique_qe` and its descriptor agree: the variants are chosen by their names, every other name clears the field |
| `SamChoose.NoiseChooseSubclass` | src/app/SAM.ts:1577-1600 | `Noise.choose_subclass(key, name)` changes only field `key`, as its switch says; a chosen node variant is a fresh default of that class |
| `SamChoose.NoiseChoice` | src/app/SAM.ts:1577-1600 | the switches of `Noise.choose_subclass` as a table: for each union key and name, the variant stored (`Chosen`), `undefined` for a name with no case (`Cleared`), and no change for a key with no case (`Unchanged`) |
| `SamChoose.NoiseChoiceAgrees` | src/app/SAM.ts:1577-1600 | for every key and name, the switch of `Noise.choose_subclass` makes the choice that `Noise.input_type` calls for |
| `SamChoose.NoiseSlotFacts` | src/app/SAM.ts:1577-1600 | each union field of `Noise` is chosen by its variants' names and only by them |
| `SamChoose.NoiseDeltaTDistributionVariantNames` | src/app/SAM.ts:1570-1571 | the names `Noise.input_type('deltaT_distribution')` lists are `Flat`, `Gaussian`, `Exponential`, `Manual`, `File`, in that order |
| `SamChoose.NoiseDeltaTDistributionChoosesAll` | src/app/SAM.ts:1579-1586 | every variant `Noise.input_type('deltaT_distribution')` lists is chosen by its own name |
| `SamChoose.NoiseDeltaTDistributionNeverUnchanged` | src/app/SAM.ts:1579-1586 | choosing on `deltaT_distribution` changes the field whatever the name: the inner switch has a default |
| `SamChoose.NoiseDeltaTDistributionChoosesOnlyListed` | src/app/SAM.ts:1579-1586 | only the listed names `Flat`, `Gaussian`, `Exponential`, `Manual`, `File` choose a variant for `deltaT_distribution`; every other name clears it to `undefined` |
| `SamChoose.NoiseDeltaTDistributionVariants` | src/app/SAM.ts:1570-1586 | the switch on `Noise.deltaT_distribution` and its descriptor agree: the variants are chosen by their names, every other name clears the field |
| `SamChoose.NoiseEnergyDistributionVariantNames` | src/app/SAM.ts:1572-1573 | the names `Noise.input_type('energy_distribution')` lists are `Flat`, `Gaussian`, `Exponential`, `Manual`, `File`, in that order |
| `SamChoose.NoiseEnergyDistributionChoosesAll` | src/app/SAM.ts:1589-1596 | every variant `Noise.input_type('energy_distribution')` lists is chosen by its own name |
| `SamChoose.NoiseEnergyDistributionNeverUnchanged` | src/app/SAM.ts:1589-1596 | choosing on `energy_distribution` changes the field whatever the name: the inner switch has a default |
| `SamChoose.NoiseEnergyDistributionChoosesOnlyListed` | src/app/SAM.ts:1589-1596 | only the listed names `Flat`, `Gaussian`, `Exponential`, `Manual`, `File` choose a variant for `energy_distribution`; every other name clears it to `undefined` |
| `SamChoose.NoiseEnergyDistributionVariants` | src/app/SAM.ts:1572-1596 | the switch on `Noise.energy_distribution` and its descriptor agree: the variants are chosen by their names, every other name clears the field |
| `SamChoose.LocalEfficiencyChooseSubclass` | src/app/SAM.ts:1624-1647 | `LocalEfficiency.choose_subclass(key, name)` changes only field `key`, as its switch says; a chosen node variant is a fresh default of that class |
| `SamChoose.LocalEfficiencyChoice` | src/app/SAM.ts:1624-1647 | the switches of `LocalEfficiency.choose_subclass` as a table: for each union key and name, the variant stored (`Chosen`), `undefined` for a name with no case (`Cleared`), and no change for a key with no case (`Unchanged`) |
| `SamChoose.LocalEfficiencyChoiceAgrees` | src/app/SAM.ts:1624-1647 | for every key and name, the switch of `LocalEfficiency.choose_subclass` makes the choice that `LocalEfficiency.input_type` calls for |
| `SamChoose.LocalEfficiencySlotFacts` | src/app/SAM.ts:1624-1647 | each union field of `LocalEfficiency` is chosen by its variants' names and only by them |
| `SamChoose.LocalEfficiencyLevel1VariantNames` | src/app/SAM.ts:1617-1618 | the names `LocalEfficiency.input_type('Level1')` lists are `Flat`, `Gaussian`, `Exponential`, `Manual`, `File`, in that order |
| `SamChoose.LocalEfficiencyLevel1ChoosesAll` | src/app/SAM.ts:1626-1633 | every variant `LocalEfficiency.input_type('Level1')` lists is chosen by its own name |
| `SamChoose.LocalEfficiencyLevel1NeverUnchanged` | src/app/SAM.ts:1626-1633 | choosing on `Level1` changes the field whatever the name: the inner switch has a default |
| `SamChoose.LocalEfficiencyLevel1ChoosesOnlyListed` | src/app/SAM.ts:1626-1633 | only the listed names `Flat`, `Gaussian`, `Exponential`, `Manual`, `File` choose a variant for `Level1`; every other name clears it to `undefined` |
| `SamChoose.LocalEfficiencyLevel1Variants` | src/app/SAM.ts:1617-1633 | the switch on `LocalEfficiency.Level1` and its descriptor agree: the variants are chosen by their names, every other name clears the field |
| `SamChoose.LocalEfficiencyLevel2VariantNames` | src/app/SAM.ts:1619-1620 | the names `LocalEfficiency.input_type('Level2')` lists are `Flat`, `Gaussian`, `Exponential`, `Manual`, `File`, in that order |
| `SamChoose.LocalEfficiencyLevel2ChoosesAll` | src/app/SAM.ts:1636-1643 | every variant `LocalEfficiency.input_type('Level2')` lists is chosen by its own name |
| `SamChoose.LocalEfficiencyLevel2NeverUnchanged` | src/app/SAM.ts:1636-1643 | choosing on `Level2` changes the field whatever the name: the inner switch has a default |
| `SamChoose.LocalEfficiencyLevel2ChoosesOnlyListed` | src/app/SAM.ts:1636-1643 | only the listed names `Flat`, `Gaussian`, `Exponential`, `Manual`, `File` choose a variant for `Level2`; every other name clears it to `undefined` |
| `SamChoose.LocalEfficiencyLevel2Variants` | src/app/SAM.ts:1619-1643 | the switch on `LocalEfficiency.Level2` and its descriptor agree: the variants are chosen by their names, every other name clears the field |
| `SamChoose.ChooseSourceChooseSubclass` | src/app/SAM.ts:1789-1799 | `ChooseSource.choose_subclass(key, name)` changes only field `key`, as its switch says; a chosen node variant is a fresh default of that class |
| `SamChoose.ChooseSourceChoice` | src/app/SAM.ts:1789-1799 | the switches of `ChooseSource.choose_subclass` as a table: for each union key and name, the variant stored (`Chosen`), `undefined` for a name with no case (`Cleared`), and no change for a key with no case (`Unchanged`) |
| `SamChoose.ChooseSourceChoiceAgrees` | src/app/SAM.ts:1789-1799 | for every key and name, the switch of `ChooseSource.choose_subclass` makes the choice that `ChooseSource.input_type` calls for |
| `SamChoose.ChooseSourceSlotFacts` | src/app/SAM.ts:1789-1799 | each union field of `ChooseSource` is chosen by its variants' names and only by them |
| `SamChoose.ChooseSourceChooseSourceVariantNames` | src/app/SAM.ts:1785 | the names `ChooseSource.input_type('choose_source')` lists are `Source`, `VoxelizedSource`, in that order |
| `SamChoose.ChooseSourceChooseSourceChoosesAll` | src/app/SAM.ts:1791-1795 | every variant `ChooseSource.input_type('choose_source')` lists is chosen by its own name |
| `SamChoose.ChooseSourceChooseSourceNeverUnchanged` | src/app/SAM.ts:1791-1795 | choosing on `choose_source` changes the field whatever the name: the inner switch has a default |
| `SamChoose.ChooseSourceChooseSourceChoosesOnlyListed` | src/app/SAM.ts:1791-1795 | only the listed names `Source`, `VoxelizedSource` choose a variant for `choose_source`; every other name clears it to `undefined` |
| `SamChoose.ChooseSourceChooseSourceVariants` | src/app/SAM.ts:1785-1795 | the switch on `ChooseSource.choose_source` and its descriptor agree: the variants are chosen by their names, every other name clears the field |
| `SamChoose.VoxelizedSourceChooseSubclass` | src/app/SAM.ts:1928-1938 | `VoxelizedSource.choose_subclass(key, name)` changes only field `key`, as its switch says; a chosen node variant is a fresh default of that class |
| `SamChoose.VoxelizedSourceChoice` | src/app/SAM.ts:1928-1938 | the switches of `VoxelizedSource.choose_subclass` as a table: for each union key and name, the variant stored (`Chosen`), `undefined` for a name with no case (`Cleared`), and no change for a key with no case (`Unchanged`) |
| `SamChoose.VoxelizedSourceChoiceAgrees` | src/app/SAM.ts:1928-1938 | for every key and name, the switch of `VoxelizedSource.choose_subclass` makes the choice that `VoxelizedSource.input_type` calls for |
| `SamChoose.VoxelizedSourceSlotFacts` | src/app/SAM.ts:1928-1938 | each union field of `VoxelizedSource` is chosen by its variants' names and only by them |
| `SamChoose.VoxelizedSourceInsertTranslatorVariantNames` | src/app/SAM.ts:1908 | the names `VoxelizedSource.input_type('insert_translator')` lists are `LinearTranslator`, `RangeTranslator`, in that order |
| `SamChoose.VoxelizedSourceInsertTranslatorChoosesAll` | src/app/SAM.ts:1930-1934 | every variant `VoxelizedSource.input_type('insert_translator')` lists is chosen by its own name |
| `SamChoose.VoxelizedSourceInsertTranslatorNeverUnchanged` | src/app/SAM.ts:1930-1934 | choosing on `insert_translator` changes the field whatever the name: the inner switch has a default |
| `SamChoose.VoxelizedSourceInsertTranslatorChoosesOnlyListed` | src/app/SAM.ts:1930-1934 | only the listed names `LinearTranslator`, `RangeTranslator` choose a variant for `insert_translator`; every other name clears it to `undefined` |
| `SamChoose.VoxelizedSourceInsertTranslatorVariants` | src/app/SAM.ts:1908-1934 | the switch on `VoxelizedSource.insert_translator` and its descriptor agree: the variants are chosen by their names, every other name clears the field |
| `SamChoose.AcquisitionChooseSubclass` | src/app/SAM.ts:2311-2328 | `Acquisition.choose_subclass(key, name)` changes only field `key`, as its switch says; a chosen node variant is a fresh default of that class |
| `SamChoose.AcquisitionChoice` | src/app/SAM.ts:2311-2328 | the switches of `Acquisition.choose_subclass` as a table: for each union key and name, the variant stored (`Chosen`), `undefined` for a name with no case (`Cleared`), and no change for a key with no case (`Unchanged`) |
| `SamChoose.AcquisitionChoiceAgrees` | src/app/SAM.ts:2311-2328 | for every key and name, the switch of `Acquisition.choose_subclass` makes the choice that `Acquisition.input_type` calls for |
| `SamChoose.AcquisitionSlotFacts` | src/app/SAM.ts:2311-2328 | each union field of `Acquisition` is chosen by its variants' names and only by them |
| `SamChoose.AcquisitionTimeSliceVariantNames` | src/app/SAM.ts:2302 | the names `Acquisition.input_type('time_slice')` lists are `Value`, `string`, in that order |
| `SamChoose.AcquisitionTimeSliceChoosesAll` | src/app/SAM.ts:2313-2317 | every variant `Acquisition.input_type('time_slice')` lists is chosen by its own name |
| `SamChoose.AcquisitionTimeSliceNeverUnchanged` | src/app/SAM.ts:2313-2317 | choosing on `time_slice` changes the field whatever the name: the inner switch has a default |
| `SamChoose.AcquisitionTimeSliceChoosesOnlyListed` | src/app/SAM.ts:2313-2317 | only the listed names `Value`, `string` choose a variant for `time_slice`; every other name clears it to `undefined` |
| `SamChoose.AcquisitionTimeSliceVariants` | src/app/SAM.ts:2302-2317 | the switch on `Acquisition.time_slice` and its descriptor agree: the variants are chosen by their names, every other name clears the field |
| `SamChoose.AcquisitionEngineSeedVariantNames` | src/app/SAM.ts:2305 | the names `Acquisition.input_type('engine_seed')` lists are `number`, `string`, in that order |
| `SamChoose.AcquisitionEngineSeedChoosesAll` | src/app/SAM.ts:2320-2324 | every variant `Acquisition.input_type('engine_seed')` lists is chosen by its own name |
| `SamChoose.AcquisitionEngineSeedNeverUnchanged` | src/app/SAM.ts:2320-2324 | choosing on `engine_seed` changes the field whatever the name: the inner switch has a default |
| `SamChoose.AcquisitionEngineSeedChoosesOnlyListed` | src/app/SAM.ts:2320-2324 | only the listed names `number`, `string` choose a variant for `engine_seed`; every other name clears it to `undefined` |
| `SamChoose.AcquisitionEngineSeedVariants` | src/app/SAM.ts:2305-2324 | the switch on `Acquisition.engine_seed` and its descriptor agree: the variants are chosen by their names, every other name clears the field |
| `SamChoiceFacts.ChoiceChangesOnlyKey` | src/app/SAM.ts:21-44 | making a choice on field `key` leaves every other field as it was |
| `SamChoiceFacts.NonUnionKeyUnchanged` | src/app/SAM.ts:21-44 | a key that is not a union field changes nothing, since the outer switch has no default |
| `SamChoiceFacts.UnlistedNameClears` | src/app/SAM.ts:33 | a name that is none of the variants clears the union field to `undefined` |
| `SamChoiceFacts.ListedVariantChosen` | src/app/SAM.ts:23-32 | each variant a union lists is chosen by its own name |
| `SamChoiceFacts.ChoicePreservesConformance` | src/app/SAM.ts:21-44 | choosing a variant on a tree that conforms to `input_type` leaves it conforming |
| `SamChoiceFacts.GeometryScannerNames` | src/app/SAM.ts:15-16 | `Geometry.input_type('scanner')` advertises the eight scanners `Scanner` ... `SPECThead` |
| `SamChoiceFacts.GeometryScannerChoices` | src/app/SAM.ts:23-32 | choosing any advertised scanner by its name stores a fresh default of that scanner class |
| `SamChoiceFacts.LocalEfficiencyUndefinedEntry` | src/app/SAM.ts:1617-1633 | the Level unions list the value `undefined` first; picking `'undefined'` clears the field |
| `SamChoiceFacts.QuantumEfficiencyPrimitiveVariants` | src/app/SAM.ts:1386-1392 | `unique_qe`: `'number'` stores `null`, `'string'` stores `''` |
| `SamChoiceFacts.AcquisitionPrimitiveVariants` | src/app/SAM.ts:2313-2324 | `engine_seed`: `'number'` gives `null`, `'string'` gives `''`; `time_slice`: `'Value'` gives one fresh Value node, `'string'` gives `''` |
| `SelectSubclass.SelectSubclassComponent.constructor` | src/app/select-subclass/select-subclass.component.ts:26-32 | a picker bound to a field name, with nothing offered or built yet |
| `SelectSubclass.SelectSubclassComponent.JudgeClass` | src/app/select-subclass/select-subclass.component.ts:37-77 | `judgeClass()` stores in `subclass` the list for its field name, `undefined` for an unknown name, and returns what it stored |
| `SelectSubclass.JudgeClassTable` | src/app/select-subclass/select-subclass.component.ts:38-75 | the switch of `judgeClass` as a table: the list of names for each of the eleven field names it has a case for, `undefined` for any other |
| `SelectSubclass.PickTable` | src/app/select-subclass/select-subclass.component.ts:80-187 | the switch of `chooseSubclass` as a table: a new node of the named class for the thirty class names, `[new Value()]` for `Value`, `''` for `string`, `-1` for `number`, `undefined` for any other |
| `SelectSubclass.SelectSubclassComponent.ChooseSubclass` | src/app/select-subclass/select-subclass.component.ts:79-190 | `chooseSubclass(event)` stores in `item` and returns, as `PickTable` says, a new default node for a class name (`DefaultNode`), `[new Value()]` for `'Value'`, `''` for `'string'`, `-1` for `'number'`, and `undefined` for any other name |
| `SelectSubclass.SelectSubclassComponent.StoreNew` | src/app/select-subclass/select-subclass.component.ts:81-175 | `this.item = new X()` for a class a case of `chooseSubclass` names: `item` holds a new default of that class whose own nodes are new defaults held once (`DefaultNode`); `name` and `subclass` are unchanged |
| `SelectSubclass.SelectSubclassComponent.StoreValueList` | src/app/select-subclass/select-subclass.component.ts:176-178 | `this.item = [new Value()]`: `item` is a one-element list holding a new default `Value` (`DefaultNode`); `name` and `subclass` are unchanged |
| `SelectSubclass.NewPicked` | src/app/select-subclass/select-subclass.component.ts:81-175 | `new X()` for each class a case of `chooseSubclass` names is a new default of that class whose own nodes are new defaults held once (`DefaultNode`) |
| `SelectSubclass.PickedClassesBuilt` | src/app/select-subclass/select-subclass.component.ts:80-188 | every class the switch of `chooseSubclass` names is one it builds |
| `SelectSubclass.JudgeClassKeys` | src/app/select-subclass/select-subclass.component.ts:38-74 | `judgeClass` has a list exactly for the eleven field names of the picker |
| `SelectSubclass.JudgeClassListsVariants` | src/app/select-subclass/select-subclass.component.ts:39-73 | for each field it has a list for, `judgeClass` offers the names `input_type` lists, with the string `'undefined'` appended for the Level fields |
| `SelectSubclass.JudgeClassCoversUnions` | src/app/select-subclass/select-subclass.component.ts:38-74 | `judgeClass` has a list for every union field except `QuantumEfficiency.unique_qe` and `ChooseSource.choose_source` |
| `SelectSubclass.PickerAgreesWithChooseTable` | src/app/select-subclass/select-subclass.component.ts:80-188 | for each offered name, the picker builds what the switch of the owning `choose_subclass` stores, up to `[Value]` for `Value`, `-1` for `null` and the `'undefined'` name |
| `SelectSubclass.PickerAgreesWithChooseSubclass` | src/app/select-subclass/select-subclass.component.ts:80-188 | for each offered name, the picker builds what `input_type` calls for, up to the same differences |
| `SelectSubclass.OfferedNamesBuildItems` | src/app/select-subclass/select-subclass.component.ts:39-73 | every offered name builds an item except the string `'undefined'`, which yields `undefined` |
| `SelectSubclass.GeometryScannerDescriptor` | src/app/SAM.ts:15-16 | `Geometry.input_type('scanner')` is the union `Scanner`, `CTscanner`, `CylindricalPET`, `CPET`, `ECAT`, `ECATAccel`, `OPET`, `SPECThead` |
| `SelectSubclass.GeometryScannerJudgeNames` | src/app/select-subclass/select-subclass.component.ts:39-41 | `judgeClass` for `scanner` offers `Scanner`, `CTscanner`, `CylindricalPET`, `CPET`, `ECAT`, `ECATAccel`, `OPET`, `SPECThead` |
| `SelectSubclass.GeometryScannerJudgeList` | src/app/select-subclass/select-subclass.component.ts:39-41 | the list `judgeClass` offers for `scanner` is the variant names of `Geometry.input_type('scanner')` |
| `SelectSubclass.GeometryScannerPicks` | src/app/select-subclass/select-subclass.component.ts:80-102 | for each name offered for `scanner`, `chooseSubclass` builds the counterpart (`PickerVersus`) of what `Geometry.choose_subclass` stores, and only `'undefined'` yields `undefined` |
| `SelectSubclass.GeometryPhantomDescriptor` | src/app/SAM.ts:17 | `Geometry.input_type('phantom')` is the union `Volume`, `VoxelizedPhantom` |
| `SelectSubclass.GeometryPhantomJudgeNames` | src/app/select-subclass/select-subclass.component.ts:43-44 | `judgeClass` for `phantom` offers `Volume`, `VoxelizedPhantom` |
| `SelectSubclass.GeometryPhantomJudgeList` | src/app/select-subclass/select-subclass.component.ts:43-44 | the list `judgeClass` offers for `phantom` is the variant names of `Geometry.input_type('phantom')` |
| `SelectSubclass.GeometryPhantomPicks` | src/app/select-subclass/select-subclass.component.ts:105-109 | for each name offered for `phantom`, `chooseSubclass` builds the counterpart (`PickerVersus`) of what `Geometry.choose_subclass` stores, and only `'undefined'` yields `undefined` |
| `SelectSubclass.VolumeShapeDescriptor` | src/app/SAM.ts:268-270 | `Volume.input_type('shape')` is the union `Box`, `Sphere`, `Cylinder`, `Cone`, `Ellipsoid`, `EllipticalTube`, `Tessellated`, `TetMeshBox`, `TRPD`, `Hexagone`, `Wedge` |
| `SelectSubclass.VolumeShapeJudgeNames` | src/app/select-subclass/select-subclass.component.ts:46-48 | `judgeClass` for `shape` offers `Box`, `Sphere`, `Cylinder`, `Cone`, `Ellipsoid`, `EllipticalTube`, `Tessellated`, `TetMeshBox`, `TRPD`, `Hexagone`, `Wedge` |
| `SelectSubclass.VolumeShapeJudgeList` | src/app/select-subclass/select-subclass.component.ts:46-48 | the list `judgeClass` offers for `shape` is the variant names of `Volume.input_type('shape')` |
| `SelectSubclass.VolumeShapePicksFront` | src/app/select-subclass/select-subclass.component.ts:112-143 | for each name offered for `shape` in the first half, `chooseSubclass` builds the counterpart (`PickerVersus`) of what `Volume.choose_subclass` stores, and only `'undefined'` yields `undefined` |
| `SelectSubclass.VolumeShapePicksBack` | src/app/select-subclass/select-subclass.component.ts:112-143 | for each name offered for `shape` in the second half, `chooseSubclass` builds the counterpart (`PickerVersus`) of what `Volume.choose_subclass` stores, and only `'undefined'` yields `undefined` |
| `SelectSubclass.NoiseDeltaTDistributionDescriptor` | src/app/SAM.ts:1570-1571 | `Noise.input_type('deltaT_distribution')` is the union `Flat`, `Gaussian`, `Exponential`, `Manual`, `File` |
| `SelectSubclass.NoiseDeltaTDistributionJudgeNames` | src/app/select-subclass/select-subclass.component.ts:50-51 | `judgeClass` for `deltaT_distribution` offers `Flat`, `Gaussian`, `Exponential`, `Manual`, `File` |
| `SelectSubclass.NoiseDeltaTDistributionJudgeList` | src/app/select-subclass/select-subclass.component.ts:50-51 | the list `judgeClass` offers for `deltaT_distribution` is the variant names of `Noise.input_type('deltaT_distribution')` |
| `SelectSubclass.NoiseDeltaTDistributionPicks` | src/app/select-subclass/select-subclass.component.ts:146-159 | for each name offered for `deltaT_distribution`, `chooseSubclass` builds the counterpart (`PickerVersus`) of what `Noise.choose_subclass` stores, and only `'undefined'` yields `undefined` |
| `SelectSubclass.NoiseEnergyDistributionDescriptor` | src/app/SAM.ts:1572-1573 | `Noise.input_type('energy_distribution')` is the union `Flat`, `Gaussian`, `Exponential`, `Manual`, `File` |
| `SelectSubclass.NoiseEnergyDistributionJudgeNames` | src/app/select-subclass/select-subclass.component.ts:53-54 | `judgeClass` for `energy_distribution` offers `Flat`, `Gaussian`, `Exponential`, `Manual`, `File` |
| `SelectSubclass.NoiseEnergyDistributionJudgeList` | src/app/select-subclass/select-subclass.component.ts:53-54 | the list `judgeClass` offers for `energy_distribution` is the variant names of `Noise.input_type('energy_distribution')` |
| `SelectSubclass.NoiseEnergyDistributionPicks` | src/app/select-subclass/select-subclass.component.ts:146-159 | for each name offered for `energy_distribution`, `chooseSubclass` builds the counterpart (`PickerVersus`) of what `Noise.choose_subclass` stores, and only `'undefined'` yields `undefined` |
| `SelectSubclass.LocalEfficiencyLevel1Descriptor` | src/app/SAM.ts:1617-1618 | `LocalEfficiency.input_type('Level1')` is the union `Flat`, `Gaussian`, `Exponential`, `Manual`, `File` |
| `SelectSubclass.LocalEfficiencyLevel1JudgeNames` | src/app/select-subclass/select-subclass.component.ts:56-57 | `judgeClass` for `Level1` offers `Flat`, `Gaussian`, `Exponential`, `Manual`, `File`, `undefined` |
| `SelectSubclass.LocalEfficiencyLevel1JudgeList` | src/app/select-subclass/select-subclass.component.ts:56-57 | the list `judgeClass` offers for `Level1` is the variant names of `LocalEfficiency.input_type('Level1')`, then the string `'undefined'` |
| `SelectSubclass.LocalEfficiencyLevel1Picks` | src/app/select-subclass/select-subclass.component.ts:146-187 | for each name offered for `Level1`, `chooseSubclass` builds the counterpart (`PickerVersus`) of what `LocalEfficiency.choose_subclass` stores, and only `'undefined'` yields `undefined` |
| `SelectSubclass.LocalEfficiencyLevel2Descriptor` | src/app/SAM.ts:1619-1620 | `LocalEfficiency.input_type('Level2')` is the union `Flat`, `Gaussian`, `Exponential`, `Manual`, `File` |
| `SelectSubclass.LocalEfficiencyLevel2JudgeNames` | src/app/select-subclass/select-subclass.component.ts:59-60 | `judgeClass` for `Level2` offers `Flat`, `Gaussian`, `Exponential`, `Manual`, `File`, `undefined` |
| `SelectSubclass.LocalEfficiencyLevel2JudgeList` | src/app/select-subclass/select-subclass.component.ts:59-60 | the list `judgeClass` offers for `Level2` is the variant names of `LocalEfficiency.input_type('Level2')`, then the string `'undefined'` |
| `SelectSubclass.LocalEfficiencyLevel2Picks` | src/app/select-subclass/select-subclass.component.ts:146-187 | for each name offered for `Level2`, `chooseSubclass` builds the counterpart (`PickerVersus`) of what `LocalEfficiency.choose_subclass` stores, and only `'undefined'` yields `undefined` |
| `SelectSubclass.BlurringLawDescriptor` | src/app/SAM.ts:1188 | `Blurring.input_type('law')` is the union `InverseSquareLaw`, `LinearLaw` |
| `SelectSubclass.BlurringLawJudgeNames` | src/app/select-subclass/select-subclass.component.ts:62-63 | `judgeClass` for `law` offers `InverseSquareLaw`, `LinearLaw` |
| `SelectSubclass.BlurringLawJudgeList` | src/app/select-subclass/select-subclass.component.ts:62-63 | the list `judgeClass` offers for `law` is the variant names of `Blurring.input_type('law')` |
| `SelectSubclass.BlurringLawPicks` | src/app/select-subclass/select-subclass.component.ts:162-166 | for each name offered for `law`, `chooseSubclass` builds the counterpart (`PickerVersus`) of what `Blurring.choose_subclass` stores, and only `'undefined'` yields `undefined` |
| `SelectSubclass.VoxelizedSourceInsertTranslatorDescriptor` | src/app/SAM.ts:1908 | `VoxelizedSource.input_type('insert_translator')` is the union `LinearTranslator`, `RangeTranslator` |
| `SelectSubclass.VoxelizedSourceInsertTranslatorJudgeNames` | src/app/select-subclass/select-subclass.component.ts:65-66 | `judgeClass` for `insert_translator` offers `LinearTranslator`, `RangeTranslator` |
| `SelectSubclass.VoxelizedSourceInsertTranslatorJudgeList` | src/app/select-subclass/select-subclass.component.ts:65-66 | the list `judgeClass` offers for `insert_translator` is the variant names of `VoxelizedSource.input_type('insert_translator')` |
| `SelectSubclass.VoxelizedSourceInsertTranslatorPicks` | src/app/select-subclass/select-subclass.component.ts:169-173 | for each name offered for `insert_translator`, `chooseSubclass` builds the counterpart (`PickerVersus`) of what `VoxelizedSource.choose_subclass` stores, and only `'undefined'` yields `undefined` |
| `SelectSubclass.AcquisitionTimeSliceDescriptor` | src/app/SAM.ts:2302 | `Acquisition.input_type('time_slice')` is the union `Value`, `string` |
| `SelectSubclass.AcquisitionTimeSliceJudgeNames` | src/app/select-subclass/select-subclass.component.ts:68-69 | `judgeClass` for `time_slice` offers `Value`, `string` |
| `SelectSubclass.AcquisitionTimeSliceJudgeList` | src/app/select-subclass/select-subclass.component.ts:68-69 | the list `judgeClass` offers for `time_slice` is the variant names of `Acquisition.input_type('time_slice')` |
| `SelectSubclass.AcquisitionTimeSlicePicks` | src/app/select-subclass/select-subclass.component.ts:176-180 | for each name offered for `time_slice`, `chooseSubclass` builds the counterpart (`PickerVersus`) of what `Acquisition.choose_subclass` stores, and only `'undefined'` yields `undefined` |
| `SelectSubclass.AcquisitionEngineSeedDescriptor` | src/app/SAM.ts:2305 | `Acquisition.input_type('engine_seed')` is the union `number`, `string` |
| `SelectSubclass.AcquisitionEngineSeedJudgeNames` | src/app/select-subclass/select-subclass.component.ts:71-72 | `judgeClass` for `engine_seed` offers `number`, `string` |
| `SelectSubclass.AcquisitionEngineSeedJudgeList` | src/app/select-subclass/select-subclass.component.ts:71-72 | the list `judgeClass` offers for `engine_seed` is the variant names of `Acquisition.input_type('engine_seed')` |
| `SelectSubclass.AcquisitionEngineSeedPicks` | src/app/select-subclass/select-subclass.component.ts:179-183 | for each name offered for `engine_seed`, `chooseSubclass` builds the counterpart (`PickerVersus`) of what `Acquisition.choose_subclass` stores, and only `'undefined'` yields `undefined` |

## Left out

- Angular plumbing: the `@Component` decorator, `@Input`/`@Output`, the `EventEmitter` and the
  `emit` at src/app/select-subclass/select-subclass.component.ts:189. `chooseSubclass` stores the
  item and returns it instead of emitting it.
- `ngOnInit`, the unused `subclassName` field and the `getType` helper of the picker
  (select-subclass.component.ts:30, 34-35, 192-194). They carry no behaviour.
- `getKeys`, `getType` and `getSubclass` in src/app/app.component.ts and
  src/app/form/form.component.ts. They wrap `Object.keys` and `Object.prototype.toString`, and
  app.component.ts and form.component.ts are not part of this model.
- The component's spec file. It only creates the component.
- Classes with no constructor or no `input_type`: the Placement, Move and Repeater classes
  (src/app/SAM.ts:560-662), `Dataset` and its alias (src/app/SAM.ts:924-931), and the bare
  bases `System`, `Shape`, `Distribution`, `BlurringLaw` and `Translator`. `System`'s
  constructor is folded into the constructors of the scanners that extend it, which each store
  `base`.
- The `// max3`, `// max4` and `// max8` comments on list fields. Nothing enforces them.
- Numeric semantics. A number is `Num(int)` and is never computed with. No floating point is
  modelled.
- Deep typing of node-valued fields. `Fits` only asks that a field naming a class hold a node of
  that class; that a child node is itself a default of its class is stated by `DefaultNode`.
- `SamFits.DefaultNode` (the contract of every `NewX`, `PutNewX` and `NewPicked`): freshness,
  conformance and single ownership are stated for the node and the nodes its fields hold, not
  for the nodes below those. Of a grandchild the contract keeps only its class, not that it is
  new or distinct from the nodes under another child. The child's own constructor states that
  much when it runs, but the parent's contract passes on only `IsFresh` of each child, so that
  no caller has to unfold a footprint of the whole tree.
- The insertion order of a JavaScript object's properties. A node's fields are a `map`, so the
  form's field order is not modelled.
- The picker's `event: any`. The model takes a string, which is all the template passes.
- `SamChoose.VariantNames`: its own contract only bounds the length. The lists it produces are
  pinned slot by slot in the `...VariantNames` lemmas.
- `SelectSubclass.SelectSubclassComponent.ChooseSubclass`: the node built for a class name is
  described by `DefaultNode`, which fixes every field up to the identity of the child nodes. It
  is not described by the exact map `XFields`, which `NewX` states but `NewPicked` does not pass on.
- `SamChoose.ChooseSubclass` and every `PutNewX`: the same holds for the node a choice stores.
- `judgeClass` has no list for `QuantumEfficiency.unique_qe` or `ChooseSource.choose_source`.
  The model states this in `JudgeClassCoversUnions` and does not invent lists for them.
- The readonly `insert = true` flags of Adder and Readout are the one kind of field whose
  initial value is not the empty value of its descriptor. `IsReadonly` marks them.

## Findings

| source | as written | input that shows it | evidently intended | confidence | as-written member | corrected member |
|---|---|---|---|---|---|---|
| src/app/SAM.ts:101-102 | `CTscanner.input_type` gives `'Volume'` for `cluster` and `pixel`, the descriptor of a single node | `new CTscanner()` stores `[new Volume()]` in `cluster` (src/app/SAM.ts:93), which a single-node descriptor rejects | `['Volume']`, the list descriptor the other list-of-node fields use | not executed | `SamFits.MisdescribedListRejectsDefault` | `SamInputType.InputType` |
| src/app/SAM.ts:130 | `CylindricalPET.input_type('layer')` gives `'Volume'` | `new CylindricalPET()` stores `[new Volume()]` in `layer` (src/app/SAM.ts:120) | `['Volume']` | not executed | `SamFits.MisdescribedListRejectsDefault` | `SamInputType.InputType` |
| src/app/SAM.ts:158 | `CPET.input_type('layer')` gives `'Volume'` | `new CPET()` stores `[new Volume()]` in `layer` (src/app/SAM.ts:148) | `['Volume']` | not executed | `SamFits.MisdescribedListRejectsDefault` | `SamInputType.InputType` |
| src/app/SAM.ts:224 | `OPET.input_type('layer')` gives `'Volume'` | `new OPET()` stores `[new Volume()]` in `layer` (src/app/SAM.ts:214) | `['Volume']` | not executed | `SamFits.MisdescribedListRejectsDefault` | `SamInputType.InputType` |

The conformance lemmas of these four classes (`SamDefaults.CTscannerConforms` and the others)
are proved against the corrected descriptors.

Two differences between the picker and `choose_subclass` are documented behaviour, not
findings, and the model proves them as they are (`SelectSubclass.PickerVersus`,
`SamChoiceFacts.LocalEfficiencyUndefinedEntry`):

- For `Level1` and `Level2`, `judgeClass` ends its list with the string `'undefined'`, while
  `input_type` puts the value `undefined` first.
- The picker builds `[new Value()]` for `'Value'` and `-1` for `'number'`. `choose_subclass`
  stores a single Value node and `null` for these.
