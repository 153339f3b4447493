/** The constructors of src/app/SAM.ts. `new X()` builds its child nodes first, as
    `this.world = new Volume()` does, and then the node itself; its contract is that the node it
    returns and every node its fields hold are new (`NodeAndChildren`), and (`DefaultNode`) that
    its fields are exactly the keys `X.input_type` describes, each holding the initial value of
    its descriptor, and that every node those fields hold is itself the default of its own
    class, is not the node itself and is held at one place only.

    `XFields` is the field map `new X()` stores, given the child nodes it builds. Everything is
    proved about that map apart from the heap of the constructor: `XConforms` (for the larger
    classes split into the key set `XKeys` and the field values `XFieldsFit`, both stated on the
    class's own table), `XChildren` (the nodes it holds are the ones it was given) and
    `XUnshared` (each of them at one place, by the owner map `XOwner`). `XDefault` puts these
    together for the node the constructor allocates. */
module SamDefaults {
  import opened SamTypes
  import opened SamInputType
  import opened SamFits

  /** The fields `new Geometry()` stores, given the nodes it builds for them. */
  function GeometryFields(c1: Node): map<string, JsValue>
  {
    map[
      "world" := Ref(c1),
      "scanner" := Undefined,
      "phantom" := Undefined]
  }

  /** The keys `new Geometry()` stores are the keys `Geometry.input_type` describes. */
  lemma GeometryKeys(c1: Node)
    ensures var f := GeometryFields(c1);
      forall key :: key in f <==> Corrected(Geometry, key, GeometryInputType(key)).Some?
  {
  }

  /** Each field `new Geometry()` stores holds the initial value of its descriptor. */
  lemma GeometryFieldsFit(c1: Node)
    requires c1.cls == Volume
    ensures var f := GeometryFields(c1);
      forall key :: key in f ==>
        var d := Corrected(Geometry, key, GeometryInputType(key));
        d.Some? && FieldFits(Geometry, key, f[key], d.value, true)
  {
  }

  /** The fields `new Geometry()` stores conform to `Geometry.input_type`. */
  lemma GeometryConforms(c1: Node)
    requires c1.cls == Volume
    ensures Conforms(Geometry, GeometryFields(c1), true)
  {
    forall key
      ensures InputType(Geometry, key) == Corrected(Geometry, key, GeometryInputType(key))
    {
      InputTypeOfGeometry(key);
    }
    GeometryKeys(c1);
    GeometryFieldsFit(c1);
  }

  /** The nodes the fields of `new Geometry()` hold are the ones it builds for them. */
  lemma GeometryChildren(c1: Node)
    ensures forall x :: x in ChildNodes(GeometryFields(c1)) ==>
      x == c1
  {
  }

  /** The field of `new Geometry()` that holds each node it builds. */
  function GeometryOwner(c1: Node): map<Node, string>
  {
    map[c1 := "world"]
  }

  /** Each node the fields of `new Geometry()` hold is held at one place only. */
  lemma GeometryUnshared(c1: Node)
    requires c1.cls == Volume
    ensures Unshared(GeometryFields(c1))
  {
    UnsharedByOwner(GeometryFields(c1), GeometryOwner(c1));
  }

  /** A node that holds the fields of `new Geometry()`, and whose child nodes
      are built for it and are not the node itself, is what `new Geometry()` builds. */
  lemma GeometryDefault(n: Node, c1: Node)
    requires n.cls == Geometry && n.fields == GeometryFields(c1)
    requires BuiltChild(n, c1) && c1.cls == Volume
    ensures DefaultNode(n, Geometry)
    ensures forall x :: x in ChildNodes(n.fields) ==> x == c1
  {
    GeometryConforms(c1);
    GeometryChildren(c1);
    GeometryUnshared(c1);
  }

  /** `new Geometry()` allocates the node it returns and every node its fields hold. */
  twostate lemma GeometryFresh(new n: Node, new c1: Node)
    requires fresh(n) && fresh(c1)
    requires n.fields == GeometryFields(c1)
    ensures fresh(NodeAndChildren(n))
  {
    GeometryChildren(c1);
  }

  /** `new Geometry()`. */
  method NewGeometry() returns (n: Node)
    ensures fresh(NodeAndChildren(n)) && DefaultNode(n, Geometry)
    ensures exists c1: Node :: n.fields == GeometryFields(c1)
  {
    var c1 := NewVolume();
    n := new Node(Geometry, GeometryFields(c1));
    GeometryFresh(n, c1);
    GeometryDefault(n, c1);
  }

  /** The fields `new Scanner()` stores, given the nodes it builds for them. */
  function ScannerFields(c1: Node, c2: Node, c3: Node, c4: Node, c5: Node,
      c6: Node): map<string, JsValue>
  {
    map[
      "base" := Ref(c1),
      "level1" := Ref(c2),
      "level2" := Ref(c3),
      "level3" := Ref(c4),
      "level4" := Ref(c5),
      "level5" := Ref(c6)]
  }

  /** The keys `new Scanner()` stores are the keys `Scanner.input_type` describes. */
  lemma ScannerKeys(c1: Node, c2: Node, c3: Node, c4: Node, c5: Node, c6: Node)
    ensures var f := ScannerFields(c1, c2, c3, c4, c5, c6);
      forall key :: key in f <==> Corrected(Scanner, key, ScannerInputType(key)).Some?
  {
  }

  /** Each field `new Scanner()` stores holds the initial value of its descriptor. */
  lemma ScannerFieldsFit(c1: Node, c2: Node, c3: Node, c4: Node, c5: Node, c6: Node)
    requires c1.cls == Volume && c2.cls == Volume && c3.cls == Volume && c4.cls == Volume &&
      c5.cls == Volume && c6.cls == Volume
    ensures var f := ScannerFields(c1, c2, c3, c4, c5, c6);
      forall key :: key in f ==>
        var d := Corrected(Scanner, key, ScannerInputType(key));
        d.Some? && FieldFits(Scanner, key, f[key], d.value, true)
  {
  }

  /** The fields `new Scanner()` stores conform to `Scanner.input_type`. */
  lemma ScannerConforms(c1: Node, c2: Node, c3: Node, c4: Node, c5: Node, c6: Node)
    requires c1.cls == Volume && c2.cls == Volume && c3.cls == Volume && c4.cls == Volume &&
      c5.cls == Volume && c6.cls == Volume
    ensures Conforms(Scanner, ScannerFields(c1, c2, c3, c4, c5, c6), true)
  {
    forall key
      ensures InputType(Scanner, key) == Corrected(Scanner, key, ScannerInputType(key))
    {
      InputTypeOfScanner(key);
    }
    ScannerKeys(c1, c2, c3, c4, c5, c6);
    ScannerFieldsFit(c1, c2, c3, c4, c5, c6);
  }

  /** The nodes the fields of `new Scanner()` hold are the ones it builds for them. */
  lemma ScannerChildren(c1: Node, c2: Node, c3: Node, c4: Node, c5: Node, c6: Node)
    ensures forall x :: x in ChildNodes(ScannerFields(c1, c2, c3, c4, c5, c6)) ==>
      x == c1 || x == c2 || x == c3 || x == c4 || x == c5 || x == c6
  {
  }

  /** The field of `new Scanner()` that holds each node it builds. */
  function ScannerOwner(c1: Node, c2: Node, c3: Node, c4: Node, c5: Node,
      c6: Node): map<Node, string>
  {
    map[c1 := "base", c2 := "level1", c3 := "level2", c4 := "level3", c5 := "level4",
      c6 := "level5"]
  }

  /** The fields `base`, `level1`, `level2` of `new Scanner()` hold only nodes it gives to them. */
  lemma ScannerOwned1(c1: Node, c2: Node, c3: Node, c4: Node, c5: Node, c6: Node)
    requires c1.cls == Volume && c2.cls == Volume && c3.cls == Volume && c4.cls == Volume &&
      c5.cls == Volume && c6.cls == Volume && c1 != c2 && c1 != c3 && c1 != c4 && c1 != c5 &&
      c1 != c6 && c2 != c3 && c2 != c4 && c2 != c5 && c2 != c6 && c3 != c4 && c3 != c5 &&
      c3 != c6 && c4 != c5 && c4 != c6 && c5 != c6
    ensures var f := ScannerFields(c1, c2, c3, c4, c5, c6);
      forall key :: key in f && key in ["base", "level1", "level2"] ==>
        OwnedBy(f[key], key, ScannerOwner(c1, c2, c3, c4, c5, c6))
  {
  }

  /** The fields `level3`, `level4`, `level5` of `new Scanner()` hold only nodes it gives to them.
      */
  lemma ScannerOwned2(c1: Node, c2: Node, c3: Node, c4: Node, c5: Node, c6: Node)
    requires c1.cls == Volume && c2.cls == Volume && c3.cls == Volume && c4.cls == Volume &&
      c5.cls == Volume && c6.cls == Volume && c1 != c2 && c1 != c3 && c1 != c4 && c1 != c5 &&
      c1 != c6 && c2 != c3 && c2 != c4 && c2 != c5 && c2 != c6 && c3 != c4 && c3 != c5 &&
      c3 != c6 && c4 != c5 && c4 != c6 && c5 != c6
    ensures var f := ScannerFields(c1, c2, c3, c4, c5, c6);
      forall key :: key in f && key in ["level3", "level4", "level5"] ==>
        OwnedBy(f[key], key, ScannerOwner(c1, c2, c3, c4, c5, c6))
  {
  }

  /** Each node the fields of `new Scanner()` hold is held at one place only. */
  lemma ScannerUnshared(c1: Node, c2: Node, c3: Node, c4: Node, c5: Node, c6: Node)
    requires c1.cls == Volume && c2.cls == Volume && c3.cls == Volume && c4.cls == Volume &&
      c5.cls == Volume && c6.cls == Volume && c1 != c2 && c1 != c3 && c1 != c4 && c1 != c5 &&
      c1 != c6 && c2 != c3 && c2 != c4 && c2 != c5 && c2 != c6 && c3 != c4 && c3 != c5 &&
      c3 != c6 && c4 != c5 && c4 != c6 && c5 != c6
    ensures Unshared(ScannerFields(c1, c2, c3, c4, c5, c6))
  {
    ScannerOwned1(c1, c2, c3, c4, c5, c6);
    ScannerOwned2(c1, c2, c3, c4, c5, c6);
    UnsharedByOwner(ScannerFields(c1, c2, c3, c4, c5, c6), ScannerOwner(c1, c2, c3, c4, c5, c6));
  }

  /** A node that holds the fields of `new Scanner()`, and whose child nodes
      are built for it and are not the node itself, is what `new Scanner()` builds. */
  lemma ScannerDefault(n: Node, c1: Node, c2: Node, c3: Node, c4: Node, c5: Node, c6: Node)
    requires n.cls == Scanner && n.fields == ScannerFields(c1, c2, c3, c4, c5, c6)
    requires BuiltChild(n, c1) && BuiltChild(n, c2) && BuiltChild(n, c3) && BuiltChild(n, c4) &&
      BuiltChild(n, c5) && BuiltChild(n, c6) && c1.cls == Volume && c2.cls == Volume &&
      c3.cls == Volume && c4.cls == Volume && c5.cls == Volume && c6.cls == Volume && c1 != c2 &&
      c1 != c3 && c1 != c4 && c1 != c5 && c1 != c6 && c2 != c3 && c2 != c4 && c2 != c5 &&
      c2 != c6 && c3 != c4 && c3 != c5 && c3 != c6 && c4 != c5 && c4 != c6 && c5 != c6
    ensures DefaultNode(n, Scanner)
    ensures forall x :: x in ChildNodes(n.fields) ==>
      x == c1 || x == c2 || x == c3 || x == c4 || x == c5 || x == c6
  {
    ScannerConforms(c1, c2, c3, c4, c5, c6);
    ScannerChildren(c1, c2, c3, c4, c5, c6);
    ScannerUnshared(c1, c2, c3, c4, c5, c6);
  }

  /** `new Scanner()` allocates the node it returns and every node its fields hold. */
  twostate lemma ScannerFresh(new n: Node, new c1: Node, new c2: Node, new c3: Node, new c4: Node,
      new c5: Node, new c6: Node)
    requires fresh(n) && fresh(c1) && fresh(c2) && fresh(c3) && fresh(c4) && fresh(c5) && fresh(c6)
    requires n.fields == ScannerFields(c1, c2, c3, c4, c5, c6)
    ensures fresh(NodeAndChildren(n))
  {
    ScannerChildren(c1, c2, c3, c4, c5, c6);
  }

  /** `new Scanner()`. */
  method NewScanner() returns (n: Node)
    ensures fresh(NodeAndChildren(n)) && DefaultNode(n, Scanner)
    ensures
      exists c1: Node, c2: Node, c3: Node, c4: Node, c5: Node, c6: Node ::
        n.fields == ScannerFields(c1, c2, c3, c4, c5, c6)
  {
    var c1 := NewVolume();
    var c2 := NewVolume();
    var c3 := NewVolume();
    var c4 := NewVolume();
    var c5 := NewVolume();
    var c6 := NewVolume();
    n := new Node(Scanner, ScannerFields(c1, c2, c3, c4, c5, c6));
    ScannerFresh(n, c1, c2, c3, c4, c5, c6);
    ScannerDefault(n, c1, c2, c3, c4, c5, c6);
  }

  /** The fields `new CTscanner()` stores, given the nodes it builds for them. */
  function CTscannerFields(c1: Node, c2: Node, c3: Node, c4: Node): map<string, JsValue>
  {
    map[
      "base" := Ref(c1),
      "module" := Ref(c2),
      "cluster" := Arr([Ref(c3)]),
      "pixel" := Arr([Ref(c4)])]
  }

  /** The keys `new CTscanner()` stores are the keys `CTscanner.input_type` describes. */
  lemma CTscannerKeys(c1: Node, c2: Node, c3: Node, c4: Node)
    ensures var f := CTscannerFields(c1, c2, c3, c4);
      forall key :: key in f <==> Corrected(CTscanner, key, CTscannerInputType(key)).Some?
  {
  }

  /** Each field `new CTscanner()` stores holds the initial value of its descriptor. */
  lemma CTscannerFieldsFit(c1: Node, c2: Node, c3: Node, c4: Node)
    requires c1.cls == Volume && c2.cls == Volume && c3.cls == Volume && c4.cls == Volume
    ensures var f := CTscannerFields(c1, c2, c3, c4);
      forall key :: key in f ==>
        var d := Corrected(CTscanner, key, CTscannerInputType(key));
        d.Some? && FieldFits(CTscanner, key, f[key], d.value, true)
  {
  }

  /** The fields `new CTscanner()` stores conform to `CTscanner.input_type`. */
  lemma CTscannerConforms(c1: Node, c2: Node, c3: Node, c4: Node)
    requires c1.cls == Volume && c2.cls == Volume && c3.cls == Volume && c4.cls == Volume
    ensures Conforms(CTscanner, CTscannerFields(c1, c2, c3, c4), true)
  {
    forall key
      ensures InputType(CTscanner, key) == Corrected(CTscanner, key, CTscannerInputType(key))
    {
      InputTypeOfCTscanner(key);
    }
    CTscannerKeys(c1, c2, c3, c4);
    CTscannerFieldsFit(c1, c2, c3, c4);
  }

  /** The nodes the fields of `new CTscanner()` hold are the ones it builds for them. */
  lemma CTscannerChildren(c1: Node, c2: Node, c3: Node, c4: Node)
    ensures forall x :: x in ChildNodes(CTscannerFields(c1, c2, c3, c4)) ==>
      x == c1 || x == c2 || x == c3 || x == c4
  {
  }

  /** The field of `new CTscanner()` that holds each node it builds. */
  function CTscannerOwner(c1: Node, c2: Node, c3: Node, c4: Node): map<Node, string>
  {
    map[c1 := "base", c2 := "module", c3 := "cluster", c4 := "pixel"]
  }

  /** Each node the fields of `new CTscanner()` hold is held at one place only. */
  lemma CTscannerUnshared(c1: Node, c2: Node, c3: Node, c4: Node)
    requires c1.cls == Volume && c2.cls == Volume && c3.cls == Volume && c4.cls == Volume &&
      c1 != c2 && c1 != c3 && c1 != c4 && c2 != c3 && c2 != c4 && c3 != c4
    ensures Unshared(CTscannerFields(c1, c2, c3, c4))
  {
    UnsharedByOwner(CTscannerFields(c1, c2, c3, c4), CTscannerOwner(c1, c2, c3, c4));
  }

  /** A node that holds the fields of `new CTscanner()`, and whose child nodes
      are built for it and are not the node itself, is what `new CTscanner()` builds. */
  lemma CTscannerDefault(n: Node, c1: Node, c2: Node, c3: Node, c4: Node)
    requires n.cls == CTscanner && n.fields == CTscannerFields(c1, c2, c3, c4)
    requires BuiltChild(n, c1) && BuiltChild(n, c2) && BuiltChild(n, c3) && BuiltChild(n, c4) &&
      c1.cls == Volume && c2.cls == Volume && c3.cls == Volume && c4.cls == Volume && c1 != c2 &&
      c1 != c3 && c1 != c4 && c2 != c3 && c2 != c4 && c3 != c4
    ensures DefaultNode(n, CTscanner)
    ensures forall x :: x in ChildNodes(n.fields) ==> x == c1 || x == c2 || x == c3 || x == c4
  {
    CTscannerConforms(c1, c2, c3, c4);
    CTscannerChildren(c1, c2, c3, c4);
    CTscannerUnshared(c1, c2, c3, c4);
  }

  /** `new CTscanner()` allocates the node it returns and every node its fields hold. */
  twostate lemma CTscannerFresh(new n: Node, new c1: Node, new c2: Node, new c3: Node, new c4: Node)
    requires fresh(n) && fresh(c1) && fresh(c2) && fresh(c3) && fresh(c4)
    requires n.fields == CTscannerFields(c1, c2, c3, c4)
    ensures fresh(NodeAndChildren(n))
  {
    CTscannerChildren(c1, c2, c3, c4);
  }

  /** `new CTscanner()`. */
  method NewCTscanner() returns (n: Node)
    ensures fresh(NodeAndChildren(n)) && DefaultNode(n, CTscanner)
    ensures
      exists c1: Node, c2: Node, c3: Node, c4: Node ::
        n.fields == CTscannerFields(c1, c2, c3, c4)
  {
    var c1 := NewVolume();
    var c2 := NewVolume();
    var c3 := NewVolume();
    var c4 := NewVolume();
    n := new Node(CTscanner, CTscannerFields(c1, c2, c3, c4));
    CTscannerFresh(n, c1, c2, c3, c4);
    CTscannerDefault(n, c1, c2, c3, c4);
  }

  /** The fields `new CylindricalPET()` stores, given the nodes it builds for them. */
  function CylindricalPETFields(c1: Node, c2: Node, c3: Node, c4: Node, c5: Node,
      c6: Node): map<string, JsValue>
  {
    map[
      "base" := Ref(c1),
      "rsector" := Ref(c2),
      "module" := Ref(c3),
      "submodule" := Ref(c4),
      "crystal" := Ref(c5),
      "layer" := Arr([Ref(c6)])]
  }

  /** The keys `new CylindricalPET()` stores are the keys `CylindricalPET.input_type` describes. */
  lemma CylindricalPETKeys(c1: Node, c2: Node, c3: Node, c4: Node, c5: Node, c6: Node)
    ensures var f := CylindricalPETFields(c1, c2, c3, c4, c5, c6);
      forall key :: key in f <==> Corrected(CylindricalPET, key, CylindricalPETInputType(key)).Some?
  {
  }

  /** Each field `new CylindricalPET()` stores holds the initial value of its descriptor. */
  lemma CylindricalPETFieldsFit(c1: Node, c2: Node, c3: Node, c4: Node, c5: Node, c6: Node)
    requires c1.cls == Volume && c2.cls == Volume && c3.cls == Volume && c4.cls == Volume &&
      c5.cls == Volume && c6.cls == Volume
    ensures var f := CylindricalPETFields(c1, c2, c3, c4, c5, c6);
      forall key :: key in f ==>
        var d := Corrected(CylindricalPET, key, CylindricalPETInputType(key));
        d.Some? && FieldFits(CylindricalPET, key, f[key], d.value, true)
  {
  }

  /** The fields `new CylindricalPET()` stores conform to `CylindricalPET.input_type`. */
  lemma CylindricalPETConforms(c1: Node, c2: Node, c3: Node, c4: Node, c5: Node, c6: Node)
    requires c1.cls == Volume && c2.cls == Volume && c3.cls == Volume && c4.cls == Volume &&
      c5.cls == Volume && c6.cls == Volume
    ensures Conforms(CylindricalPET, CylindricalPETFields(c1, c2, c3, c4, c5, c6), true)
  {
    forall key
      ensures InputType(CylindricalPET, key) ==
        Corrected(CylindricalPET, key, CylindricalPETInputType(key))
    {
      InputTypeOfCylindricalPET(key);
    }
    CylindricalPETKeys(c1, c2, c3, c4, c5, c6);
    CylindricalPETFieldsFit(c1, c2, c3, c4, c5, c6);
  }

  /** The nodes the fields of `new CylindricalPET()` hold are the ones it builds for them. */
  lemma CylindricalPETChildren(c1: Node, c2: Node, c3: Node, c4: Node, c5: Node, c6: Node)
    ensures forall x :: x in ChildNodes(CylindricalPETFields(c1, c2, c3, c4, c5, c6)) ==>
      x == c1 || x == c2 || x == c3 || x == c4 || x == c5 || x == c6
  {
  }

  /** The field of `new CylindricalPET()` that holds each node it builds. */
  function CylindricalPETOwner(c1: Node, c2: Node, c3: Node, c4: Node, c5: Node,
      c6: Node): map<Node, string>
  {
    map[c1 := "base", c2 := "rsector", c3 := "module", c4 := "submodule", c5 := "crystal",
      c6 := "layer"]
  }

  /** The fields `base`, `rsector`, `module` of `new CylindricalPET()` hold only nodes it gives to
      them. */
  lemma CylindricalPETOwned1(c1: Node, c2: Node, c3: Node, c4: Node, c5: Node, c6: Node)
    requires c1.cls == Volume && c2.cls == Volume && c3.cls == Volume && c4.cls == Volume &&
      c5.cls == Volume && c6.cls == Volume && c1 != c2 && c1 != c3 && c1 != c4 && c1 != c5 &&
      c1 != c6 && c2 != c3 && c2 != c4 && c2 != c5 && c2 != c6 && c3 != c4 && c3 != c5 &&
      c3 != c6 && c4 != c5 && c4 != c6 && c5 != c6
    ensures var f := CylindricalPETFields(c1, c2, c3, c4, c5, c6);
      forall key :: key in f && key in ["base", "rsector", "module"] ==>
        OwnedBy(f[key], key, CylindricalPETOwner(c1, c2, c3, c4, c5, c6))
  {
  }

  /** The fields `submodule`, `crystal`, `layer` of `new CylindricalPET()` hold only nodes it gives
      to them. */
  lemma CylindricalPETOwned2(c1: Node, c2: Node, c3: Node, c4: Node, c5: Node, c6: Node)
    requires c1.cls == Volume && c2.cls == Volume && c3.cls == Volume && c4.cls == Volume &&
      c5.cls == Volume && c6.cls == Volume && c1 != c2 && c1 != c3 && c1 != c4 && c1 != c5 &&
      c1 != c6 && c2 != c3 && c2 != c4 && c2 != c5 && c2 != c6 && c3 != c4 && c3 != c5 &&
      c3 != c6 && c4 != c5 && c4 != c6 && c5 != c6
    ensures var f := CylindricalPETFields(c1, c2, c3, c4, c5, c6);
      forall key :: key in f && key in ["submodule", "crystal", "layer"] ==>
        OwnedBy(f[key], key, CylindricalPETOwner(c1, c2, c3, c4, c5, c6))
  {
  }

  /** Each node the fields of `new CylindricalPET()` hold is held at one place only. */
  lemma CylindricalPETUnshared(c1: Node, c2: Node, c3: Node, c4: Node, c5: Node, c6: Node)
    requires c1.cls == Volume && c2.cls == Volume && c3.cls == Volume && c4.cls == Volume &&
      c5.cls == Volume && c6.cls == Volume && c1 != c2 && c1 != c3 && c1 != c4 && c1 != c5 &&
      c1 != c6 && c2 != c3 && c2 != c4 && c2 != c5 && c2 != c6 && c3 != c4 && c3 != c5 &&
      c3 != c6 && c4 != c5 && c4 != c6 && c5 != c6
    ensures Unshared(CylindricalPETFields(c1, c2, c3, c4, c5, c6))
  {
    CylindricalPETOwned1(c1, c2, c3, c4, c5, c6);
    CylindricalPETOwned2(c1, c2, c3, c4, c5, c6);
    UnsharedByOwner(CylindricalPETFields(c1, c2, c3, c4, c5, c6),
      CylindricalPETOwner(c1, c2, c3, c4, c5, c6));
  }

  /** A node that holds the fields of `new CylindricalPET()`, and whose child nodes
      are built for it and are not the node itself, is what `new CylindricalPET()` builds. */
  lemma CylindricalPETDefault(n: Node, c1: Node, c2: Node, c3: Node, c4: Node, c5: Node, c6: Node)
    requires n.cls == CylindricalPET &&
      n.fields == CylindricalPETFields(c1, c2, c3, c4, c5, c6)
    requires BuiltChild(n, c1) && BuiltChild(n, c2) && BuiltChild(n, c3) && BuiltChild(n, c4) &&
      BuiltChild(n, c5) && BuiltChild(n, c6) && c1.cls == Volume && c2.cls == Volume &&
      c3.cls == Volume && c4.cls == Volume && c5.cls == Volume && c6.cls == Volume && c1 != c2 &&
      c1 != c3 && c1 != c4 && c1 != c5 && c1 != c6 && c2 != c3 && c2 != c4 && c2 != c5 &&
      c2 != c6 && c3 != c4 && c3 != c5 && c3 != c6 && c4 != c5 && c4 != c6 && c5 != c6
    ensures DefaultNode(n, CylindricalPET)
    ensures forall x :: x in ChildNodes(n.fields) ==>
      x == c1 || x == c2 || x == c3 || x == c4 || x == c5 || x == c6
  {
    CylindricalPETConforms(c1, c2, c3, c4, c5, c6);
    CylindricalPETChildren(c1, c2, c3, c4, c5, c6);
    CylindricalPETUnshared(c1, c2, c3, c4, c5, c6);
  }

  /** `new CylindricalPET()` allocates the node it returns and every node its fields hold. */
  twostate lemma CylindricalPETFresh(new n: Node, new c1: Node, new c2: Node, new c3: Node,
      new c4: Node, new c5: Node, new c6: Node)
    requires fresh(n) && fresh(c1) && fresh(c2) && fresh(c3) && fresh(c4) && fresh(c5) && fresh(c6)
    requires n.fields == CylindricalPETFields(c1, c2, c3, c4, c5, c6)
    ensures fresh(NodeAndChildren(n))
  {
    CylindricalPETChildren(c1, c2, c3, c4, c5, c6);
  }

  /** `new CylindricalPET()`. */
  method NewCylindricalPET() returns (n: Node)
    ensures fresh(NodeAndChildren(n)) && DefaultNode(n, CylindricalPET)
    ensures
      exists c1: Node, c2: Node, c3: Node, c4: Node, c5: Node, c6: Node ::
        n.fields == CylindricalPETFields(c1, c2, c3, c4, c5, c6)
  {
    var c1 := NewVolume();
    var c2 := NewVolume();
    var c3 := NewVolume();
    var c4 := NewVolume();
    var c5 := NewVolume();
    var c6 := NewVolume();
    n := new Node(CylindricalPET, CylindricalPETFields(c1, c2, c3, c4, c5, c6));
    CylindricalPETFresh(n, c1, c2, c3, c4, c5, c6);
    CylindricalPETDefault(n, c1, c2, c3, c4, c5, c6);
  }

  /** The fields `new CPET()` stores, given the nodes it builds for them. */
  function CPETFields(c1: Node, c2: Node, c3: Node, c4: Node, c5: Node,
      c6: Node): map<string, JsValue>
  {
    map[
      "base" := Ref(c1),
      "sector" := Ref(c2),
      "cassette" := Ref(c3),
      "module" := Ref(c4),
      "crystal" := Ref(c5),
      "layer" := Arr([Ref(c6)])]
  }

  /** The keys `new CPET()` stores are the keys `CPET.input_type` describes. */
  lemma CPETKeys(c1: Node, c2: Node, c3: Node, c4: Node, c5: Node, c6: Node)
    ensures var f := CPETFields(c1, c2, c3, c4, c5, c6);
      forall key :: key in f <==> Corrected(CPET, key, CPETInputType(key)).Some?
  {
  }

  /** Each field `new CPET()` stores holds the initial value of its descriptor. */
  lemma CPETFieldsFit(c1: Node, c2: Node, c3: Node, c4: Node, c5: Node, c6: Node)
    requires c1.cls == Volume && c2.cls == Volume && c3.cls == Volume && c4.cls == Volume &&
      c5.cls == Volume && c6.cls == Volume
    ensures var f := CPETFields(c1, c2, c3, c4, c5, c6);
      forall key :: key in f ==>
        var d := Corrected(CPET, key, CPETInputType(key));
        d.Some? && FieldFits(CPET, key, f[key], d.value, true)
  {
  }

  /** The fields `new CPET()` stores conform to `CPET.input_type`. */
  lemma CPETConforms(c1: Node, c2: Node, c3: Node, c4: Node, c5: Node, c6: Node)
    requires c1.cls == Volume && c2.cls == Volume && c3.cls == Volume && c4.cls == Volume &&
      c5.cls == Volume && c6.cls == Volume
    ensures Conforms(CPET, CPETFields(c1, c2, c3, c4, c5, c6), true)
  {
    forall key
      ensures InputType(CPET, key) == Corrected(CPET, key, CPETInputType(key))
    {
      InputTypeOfCPET(key);
    }
    CPETKeys(c1, c2, c3, c4, c5, c6);
    CPETFieldsFit(c1, c2, c3, c4, c5, c6);
  }

  /** The nodes the fields of `new CPET()` hold are the ones it builds for them. */
  lemma CPETChildren(c1: Node, c2: Node, c3: Node, c4: Node, c5: Node, c6: Node)
    ensures forall x :: x in ChildNodes(CPETFields(c1, c2, c3, c4, c5, c6)) ==>
      x == c1 || x == c2 || x == c3 || x == c4 || x == c5 || x == c6
  {
  }

  /** The field of `new CPET()` that holds each node it builds. */
  function CPETOwner(c1: Node, c2: Node, c3: Node, c4: Node, c5: Node, c6: Node): map<Node, string>
  {
    map[c1 := "base", c2 := "sector", c3 := "cassette", c4 := "module", c5 := "crystal",
      c6 := "layer"]
  }

  /** The fields `base`, `sector`, `cassette` of `new CPET()` hold only nodes it gives to them. */
  lemma CPETOwned1(c1: Node, c2: Node, c3: Node, c4: Node, c5: Node, c6: Node)
    requires c1.cls == Volume && c2.cls == Volume && c3.cls == Volume && c4.cls == Volume &&
      c5.cls == Volume && c6.cls == Volume && c1 != c2 && c1 != c3 && c1 != c4 && c1 != c5 &&
      c1 != c6 && c2 != c3 && c2 != c4 && c2 != c5 && c2 != c6 && c3 != c4 && c3 != c5 &&
      c3 != c6 && c4 != c5 && c4 != c6 && c5 != c6
    ensures var f := CPETFields(c1, c2, c3, c4, c5, c6);
      forall key :: key in f && key in ["base", "sector", "cassette"] ==>
        OwnedBy(f[key], key, CPETOwner(c1, c2, c3, c4, c5, c6))
  {
  }

  /** The fields `module`, `crystal`, `layer` of `new CPET()` hold only nodes it gives to them. */
  lemma CPETOwned2(c1: Node, c2: Node, c3: Node, c4: Node, c5: Node, c6: Node)
    requires c1.cls == Volume && c2.cls == Volume && c3.cls == Volume && c4.cls == Volume &&
      c5.cls == Volume && c6.cls == Volume && c1 != c2 && c1 != c3 && c1 != c4 && c1 != c5 &&
      c1 != c6 && c2 != c3 && c2 != c4 && c2 != c5 && c2 != c6 && c3 != c4 && c3 != c5 &&
      c3 != c6 && c4 != c5 && c4 != c6 && c5 != c6
    ensures var f := CPETFields(c1, c2, c3, c4, c5, c6);
      forall key :: key in f && key in ["module", "crystal", "layer"] ==>
        OwnedBy(f[key], key, CPETOwner(c1, c2, c3, c4, c5, c6))
  {
  }

  /** Each node the fields of `new CPET()` hold is held at one place only. */
  lemma CPETUnshared(c1: Node, c2: Node, c3: Node, c4: Node, c5: Node, c6: Node)
    requires c1.cls == Volume && c2.cls == Volume && c3.cls == Volume && c4.cls == Volume &&
      c5.cls == Volume && c6.cls == Volume && c1 != c2 && c1 != c3 && c1 != c4 && c1 != c5 &&
      c1 != c6 && c2 != c3 && c2 != c4 && c2 != c5 && c2 != c6 && c3 != c4 && c3 != c5 &&
      c3 != c6 && c4 != c5 && c4 != c6 && c5 != c6
    ensures Unshared(CPETFields(c1, c2, c3, c4, c5, c6))
  {
    CPETOwned1(c1, c2, c3, c4, c5, c6);
    CPETOwned2(c1, c2, c3, c4, c5, c6);
    UnsharedByOwner(CPETFields(c1, c2, c3, c4, c5, c6), CPETOwner(c1, c2, c3, c4, c5, c6));
  }

  /** A node that holds the fields of `new CPET()`, and whose child nodes
      are built for it and are not the node itself, is what `new CPET()` builds. */
  lemma CPETDefault(n: Node, c1: Node, c2: Node, c3: Node, c4: Node, c5: Node, c6: Node)
    requires n.cls == CPET && n.fields == CPETFields(c1, c2, c3, c4, c5, c6)
    requires BuiltChild(n, c1) && BuiltChild(n, c2) && BuiltChild(n, c3) && BuiltChild(n, c4) &&
      BuiltChild(n, c5) && BuiltChild(n, c6) && c1.cls == Volume && c2.cls == Volume &&
      c3.cls == Volume && c4.cls == Volume && c5.cls == Volume && c6.cls == Volume && c1 != c2 &&
      c1 != c3 && c1 != c4 && c1 != c5 && c1 != c6 && c2 != c3 && c2 != c4 && c2 != c5 &&
      c2 != c6 && c3 != c4 && c3 != c5 && c3 != c6 && c4 != c5 && c4 != c6 && c5 != c6
    ensures DefaultNode(n, CPET)
    ensures forall x :: x in ChildNodes(n.fields) ==>
      x == c1 || x == c2 || x == c3 || x == c4 || x == c5 || x == c6
  {
    CPETConforms(c1, c2, c3, c4, c5, c6);
    CPETChildren(c1, c2, c3, c4, c5, c6);
    CPETUnshared(c1, c2, c3, c4, c5, c6);
  }

  /** `new CPET()` allocates the node it returns and every node its fields hold. */
  twostate lemma CPETFresh(new n: Node, new c1: Node, new c2: Node, new c3: Node, new c4: Node,
      new c5: Node, new c6: Node)
    requires fresh(n) && fresh(c1) && fresh(c2) && fresh(c3) && fresh(c4) && fresh(c5) && fresh(c6)
    requires n.fields == CPETFields(c1, c2, c3, c4, c5, c6)
    ensures fresh(NodeAndChildren(n))
  {
    CPETChildren(c1, c2, c3, c4, c5, c6);
  }

  /** `new CPET()`. */
  method NewCPET() returns (n: Node)
    ensures fresh(NodeAndChildren(n)) && DefaultNode(n, CPET)
    ensures
      exists c1: Node, c2: Node, c3: Node, c4: Node, c5: Node, c6: Node ::
        n.fields == CPETFields(c1, c2, c3, c4, c5, c6)
  {
    var c1 := NewVolume();
    var c2 := NewVolume();
    var c3 := NewVolume();
    var c4 := NewVolume();
    var c5 := NewVolume();
    var c6 := NewVolume();
    n := new Node(CPET, CPETFields(c1, c2, c3, c4, c5, c6));
    CPETFresh(n, c1, c2, c3, c4, c5, c6);
    CPETDefault(n, c1, c2, c3, c4, c5, c6);
  }

  /** The fields `new ECAT()` stores, given the nodes it builds for them. */
  function ECATFields(c1: Node, c2: Node, c3: Node): map<string, JsValue>
  {
    map[
      "base" := Ref(c1),
      "block" := Ref(c2),
      "crystal" := Ref(c3)]
  }

  /** The keys `new ECAT()` stores are the keys `ECAT.input_type` describes. */
  lemma ECATKeys(c1: Node, c2: Node, c3: Node)
    ensures var f := ECATFields(c1, c2, c3);
      forall key :: key in f <==> Corrected(ECAT, key, ECATInputType(key)).Some?
  {
  }

  /** Each field `new ECAT()` stores holds the initial value of its descriptor. */
  lemma ECATFieldsFit(c1: Node, c2: Node, c3: Node)
    requires c1.cls == Volume && c2.cls == Volume && c3.cls == Volume
    ensures var f := ECATFields(c1, c2, c3);
      forall key :: key in f ==>
        var d := Corrected(ECAT, key, ECATInputType(key));
        d.Some? && FieldFits(ECAT, key, f[key], d.value, true)
  {
  }

  /** The fields `new ECAT()` stores conform to `ECAT.input_type`. */
  lemma ECATConforms(c1: Node, c2: Node, c3: Node)
    requires c1.cls == Volume && c2.cls == Volume && c3.cls == Volume
    ensures Conforms(ECAT, ECATFields(c1, c2, c3), true)
  {
    forall key
      ensures InputType(ECAT, key) == Corrected(ECAT, key, ECATInputType(key))
    {
      InputTypeOfECAT(key);
    }
    ECATKeys(c1, c2, c3);
    ECATFieldsFit(c1, c2, c3);
  }

  /** The nodes the fields of `new ECAT()` hold are the ones it builds for them. */
  lemma ECATChildren(c1: Node, c2: Node, c3: Node)
    ensures forall x :: x in ChildNodes(ECATFields(c1, c2, c3)) ==>
      x == c1 || x == c2 || x == c3
  {
  }

  /** The field of `new ECAT()` that holds each node it builds. */
  function ECATOwner(c1: Node, c2: Node, c3: Node): map<Node, string>
  {
    map[c1 := "base", c2 := "block", c3 := "crystal"]
  }

  /** Each node the fields of `new ECAT()` hold is held at one place only. */
  lemma ECATUnshared(c1: Node, c2: Node, c3: Node)
    requires c1.cls == Volume && c2.cls == Volume && c3.cls == Volume && c1 != c2 && c1 != c3 &&
      c2 != c3
    ensures Unshared(ECATFields(c1, c2, c3))
  {
    UnsharedByOwner(ECATFields(c1, c2, c3), ECATOwner(c1, c2, c3));
  }

  /** A node that holds the fields of `new ECAT()`, and whose child nodes
      are built for it and are not the node itself, is what `new ECAT()` builds. */
  lemma ECATDefault(n: Node, c1: Node, c2: Node, c3: Node)
    requires n.cls == ECAT && n.fields == ECATFields(c1, c2, c3)
    requires BuiltChild(n, c1) && BuiltChild(n, c2) && BuiltChild(n, c3) && c1.cls == Volume &&
      c2.cls == Volume && c3.cls == Volume && c1 != c2 && c1 != c3 && c2 != c3
    ensures DefaultNode(n, ECAT)
    ensures forall x :: x in ChildNodes(n.fields) ==> x == c1 || x == c2 || x == c3
  {
    ECATConforms(c1, c2, c3);
    ECATChildren(c1, c2, c3);
    ECATUnshared(c1, c2, c3);
  }

  /** `new ECAT()` allocates the node it returns and every node its fields hold. */
  twostate lemma ECATFresh(new n: Node, new c1: Node, new c2: Node, new c3: Node)
    requires fresh(n) && fresh(c1) && fresh(c2) && fresh(c3)
    requires n.fields == ECATFields(c1, c2, c3)
    ensures fresh(NodeAndChildren(n))
  {
    ECATChildren(c1, c2, c3);
  }

  /** `new ECAT()`. */
  method NewECAT() returns (n: Node)
    ensures fresh(NodeAndChildren(n)) && DefaultNode(n, ECAT)
    ensures exists c1: Node, c2: Node, c3: Node :: n.fields == ECATFields(c1, c2, c3)
  {
    var c1 := NewVolume();
    var c2 := NewVolume();
    var c3 := NewVolume();
    n := new Node(ECAT, ECATFields(c1, c2, c3));
    ECATFresh(n, c1, c2, c3);
    ECATDefault(n, c1, c2, c3);
  }

  /** The fields `new ECATAccel()` stores, given the nodes it builds for them. */
  function ECATAccelFields(c1: Node, c2: Node, c3: Node): map<string, JsValue>
  {
    map[
      "base" := Ref(c1),
      "block" := Ref(c2),
      "crystal" := Ref(c3)]
  }

  /** The keys `new ECATAccel()` stores are the keys `ECATAccel.input_type` describes. */
  lemma ECATAccelKeys(c1: Node, c2: Node, c3: Node)
    ensures var f := ECATAccelFields(c1, c2, c3);
      forall key :: key in f <==> Corrected(ECATAccel, key, ECATAccelInputType(key)).Some?
  {
  }

  /** Each field `new ECATAccel()` stores holds the initial value of its descriptor. */
  lemma ECATAccelFieldsFit(c1: Node, c2: Node, c3: Node)
    requires c1.cls == Volume && c2.cls == Volume && c3.cls == Volume
    ensures var f := ECATAccelFields(c1, c2, c3);
      forall key :: key in f ==>
        var d := Corrected(ECATAccel, key, ECATAccelInputType(key));
        d.Some? && FieldFits(ECATAccel, key, f[key], d.value, true)
  {
  }

  /** The fields `new ECATAccel()` stores conform to `ECATAccel.input_type`. */
  lemma ECATAccelConforms(c1: Node, c2: Node, c3: Node)
    requires c1.cls == Volume && c2.cls == Volume && c3.cls == Volume
    ensures Conforms(ECATAccel, ECATAccelFields(c1, c2, c3), true)
  {
    forall key
      ensures InputType(ECATAccel, key) == Corrected(ECATAccel, key, ECATAccelInputType(key))
    {
      InputTypeOfECATAccel(key);
    }
    ECATAccelKeys(c1, c2, c3);
    ECATAccelFieldsFit(c1, c2, c3);
  }

  /** The nodes the fields of `new ECATAccel()` hold are the ones it builds for them. */
  lemma ECATAccelChildren(c1: Node, c2: Node, c3: Node)
    ensures forall x :: x in ChildNodes(ECATAccelFields(c1, c2, c3)) ==>
      x == c1 || x == c2 || x == c3
  {
  }

  /** The field of `new ECATAccel()` that holds each node it builds. */
  function ECATAccelOwner(c1: Node, c2: Node, c3: Node): map<Node, string>
  {
    map[c1 := "base", c2 := "block", c3 := "crystal"]
  }

  /** Each node the fields of `new ECATAccel()` hold is held at one place only. */
  lemma ECATAccelUnshared(c1: Node, c2: Node, c3: Node)
    requires c1.cls == Volume && c2.cls == Volume && c3.cls == Volume && c1 != c2 && c1 != c3 &&
      c2 != c3
    ensures Unshared(ECATAccelFields(c1, c2, c3))
  {
    UnsharedByOwner(ECATAccelFields(c1, c2, c3), ECATAccelOwner(c1, c2, c3));
  }

  /** A node that holds the fields of `new ECATAccel()`, and whose child nodes
      are built for it and are not the node itself, is what `new ECATAccel()` builds. */
  lemma ECATAccelDefault(n: Node, c1: Node, c2: Node, c3: Node)
    requires n.cls == ECATAccel && n.fields == ECATAccelFields(c1, c2, c3)
    requires BuiltChild(n, c1) && BuiltChild(n, c2) && BuiltChild(n, c3) && c1.cls == Volume &&
      c2.cls == Volume && c3.cls == Volume && c1 != c2 && c1 != c3 && c2 != c3
    ensures DefaultNode(n, ECATAccel)
    ensures forall x :: x in ChildNodes(n.fields) ==> x == c1 || x == c2 || x == c3
  {
    ECATAccelConforms(c1, c2, c3);
    ECATAccelChildren(c1, c2, c3);
    ECATAccelUnshared(c1, c2, c3);
  }

  /** `new ECATAccel()` allocates the node it returns and every node its fields hold. */
  twostate lemma ECATAccelFresh(new n: Node, new c1: Node, new c2: Node, new c3: Node)
    requires fresh(n) && fresh(c1) && fresh(c2) && fresh(c3)
    requires n.fields == ECATAccelFields(c1, c2, c3)
    ensures fresh(NodeAndChildren(n))
  {
    ECATAccelChildren(c1, c2, c3);
  }

  /** `new ECATAccel()`. */
  method NewECATAccel() returns (n: Node)
    ensures fresh(NodeAndChildren(n)) && DefaultNode(n, ECATAccel)
    ensures exists c1: Node, c2: Node, c3: Node :: n.fields == ECATAccelFields(c1, c2, c3)
  {
    var c1 := NewVolume();
    var c2 := NewVolume();
    var c3 := NewVolume();
    n := new Node(ECATAccel, ECATAccelFields(c1, c2, c3));
    ECATAccelFresh(n, c1, c2, c3);
    ECATAccelDefault(n, c1, c2, c3);
  }

  /** The fields `new OPET()` stores, given the nodes it builds for them. */
  function OPETFields(c1: Node, c2: Node, c3: Node, c4: Node, c5: Node,
      c6: Node): map<string, JsValue>
  {
    map[
      "base" := Ref(c1),
      "rsector" := Ref(c2),
      "module" := Ref(c3),
      "submodule" := Ref(c4),
      "crystal" := Ref(c5),
      "layer" := Arr([Ref(c6)])]
  }

  /** The keys `new OPET()` stores are the keys `OPET.input_type` describes. */
  lemma OPETKeys(c1: Node, c2: Node, c3: Node, c4: Node, c5: Node, c6: Node)
    ensures var f := OPETFields(c1, c2, c3, c4, c5, c6);
      forall key :: key in f <==> Corrected(OPET, key, OPETInputType(key)).Some?
  {
  }

  /** Each field `new OPET()` stores holds the initial value of its descriptor. */
  lemma OPETFieldsFit(c1: Node, c2: Node, c3: Node, c4: Node, c5: Node, c6: Node)
    requires c1.cls == Volume && c2.cls == Volume && c3.cls == Volume && c4.cls == Volume &&
      c5.cls == Volume && c6.cls == Volume
    ensures var f := OPETFields(c1, c2, c3, c4, c5, c6);
      forall key :: key in f ==>
        var d := Corrected(OPET, key, OPETInputType(key));
        d.Some? && FieldFits(OPET, key, f[key], d.value, true)
  {
  }

  /** The fields `new OPET()` stores conform to `OPET.input_type`. */
  lemma OPETConforms(c1: Node, c2: Node, c3: Node, c4: Node, c5: Node, c6: Node)
    requires c1.cls == Volume && c2.cls == Volume && c3.cls == Volume && c4.cls == Volume &&
      c5.cls == Volume && c6.cls == Volume
    ensures Conforms(OPET, OPETFields(c1, c2, c3, c4, c5, c6), true)
  {
    forall key
      ensures InputType(OPET, key) == Corrected(OPET, key, OPETInputType(key))
    {
      InputTypeOfOPET(key);
    }
    OPETKeys(c1, c2, c3, c4, c5, c6);
    OPETFieldsFit(c1, c2, c3, c4, c5, c6);
  }

  /** The nodes the fields of `new OPET()` hold are the ones it builds for them. */
  lemma OPETChildren(c1: Node, c2: Node, c3: Node, c4: Node, c5: Node, c6: Node)
    ensures forall x :: x in ChildNodes(OPETFields(c1, c2, c3, c4, c5, c6)) ==>
      x == c1 || x == c2 || x == c3 || x == c4 || x == c5 || x == c6
  {
  }

  /** The field of `new OPET()` that holds each node it builds. */
  function OPETOwner(c1: Node, c2: Node, c3: Node, c4: Node, c5: Node, c6: Node): map<Node, string>
  {
    map[c1 := "base", c2 := "rsector", c3 := "module", c4 := "submodule", c5 := "crystal",
      c6 := "layer"]
  }

  /** The fields `base`, `rsector`, `module` of `new OPET()` hold only nodes it gives to them. */
  lemma OPETOwned1(c1: Node, c2: Node, c3: Node, c4: Node, c5: Node, c6: Node)
    requires c1.cls == Volume && c2.cls == Volume && c3.cls == Volume && c4.cls == Volume &&
      c5.cls == Volume && c6.cls == Volume && c1 != c2 && c1 != c3 && c1 != c4 && c1 != c5 &&
      c1 != c6 && c2 != c3 && c2 != c4 && c2 != c5 && c2 != c6 && c3 != c4 && c3 != c5 &&
      c3 != c6 && c4 != c5 && c4 != c6 && c5 != c6
    ensures var f := OPETFields(c1, c2, c3, c4, c5, c6);
      forall key :: key in f && key in ["base", "rsector", "module"] ==>
        OwnedBy(f[key], key, OPETOwner(c1, c2, c3, c4, c5, c6))
  {
  }

  /** The fields `submodule`, `crystal`, `layer` of `new OPET()` hold only nodes it gives to them.
      */
  lemma OPETOwned2(c1: Node, c2: Node, c3: Node, c4: Node, c5: Node, c6: Node)
    requires c1.cls == Volume && c2.cls == Volume && c3.cls == Volume && c4.cls == Volume &&
      c5.cls == Volume && c6.cls == Volume && c1 != c2 && c1 != c3 && c1 != c4 && c1 != c5 &&
      c1 != c6 && c2 != c3 && c2 != c4 && c2 != c5 && c2 != c6 && c3 != c4 && c3 != c5 &&
      c3 != c6 && c4 != c5 && c4 != c6 && c5 != c6
    ensures var f := OPETFields(c1, c2, c3, c4, c5, c6);
      forall key :: key in f && key in ["submodule", "crystal", "layer"] ==>
        OwnedBy(f[key], key, OPETOwner(c1, c2, c3, c4, c5, c6))
  {
  }

  /** Each node the fields of `new OPET()` hold is held at one place only. */
  lemma OPETUnshared(c1: Node, c2: Node, c3: Node, c4: Node, c5: Node, c6: Node)
    requires c1.cls == Volume && c2.cls == Volume && c3.cls == Volume && c4.cls == Volume &&
      c5.cls == Volume && c6.cls == Volume && c1 != c2 && c1 != c3 && c1 != c4 && c1 != c5 &&
      c1 != c6 && c2 != c3 && c2 != c4 && c2 != c5 && c2 != c6 && c3 != c4 && c3 != c5 &&
      c3 != c6 && c4 != c5 && c4 != c6 && c5 != c6
    ensures Unshared(OPETFields(c1, c2, c3, c4, c5, c6))
  {
    OPETOwned1(c1, c2, c3, c4, c5, c6);
    OPETOwned2(c1, c2, c3, c4, c5, c6);
    UnsharedByOwner(OPETFields(c1, c2, c3, c4, c5, c6), OPETOwner(c1, c2, c3, c4, c5, c6));
  }

  /** A node that holds the fields of `new OPET()`, and whose child nodes
      are built for it and are not the node itself, is what `new OPET()` builds. */
  lemma OPETDefault(n: Node, c1: Node, c2: Node, c3: Node, c4: Node, c5: Node, c6: Node)
    requires n.cls == OPET && n.fields == OPETFields(c1, c2, c3, c4, c5, c6)
    requires BuiltChild(n, c1) && BuiltChild(n, c2) && BuiltChild(n, c3) && BuiltChild(n, c4) &&
      BuiltChild(n, c5) && BuiltChild(n, c6) && c1.cls == Volume && c2.cls == Volume &&
      c3.cls == Volume && c4.cls == Volume && c5.cls == Volume && c6.cls == Volume && c1 != c2 &&
      c1 != c3 && c1 != c4 && c1 != c5 && c1 != c6 && c2 != c3 && c2 != c4 && c2 != c5 &&
      c2 != c6 && c3 != c4 && c3 != c5 && c3 != c6 && c4 != c5 && c4 != c6 && c5 != c6
    ensures DefaultNode(n, OPET)
    ensures forall x :: x in ChildNodes(n.fields) ==>
      x == c1 || x == c2 || x == c3 || x == c4 || x == c5 || x == c6
  {
    OPETConforms(c1, c2, c3, c4, c5, c6);
    OPETChildren(c1, c2, c3, c4, c5, c6);
    OPETUnshared(c1, c2, c3, c4, c5, c6);
  }

  /** `new OPET()` allocates the node it returns and every node its fields hold. */
  twostate lemma OPETFresh(new n: Node, new c1: Node, new c2: Node, new c3: Node, new c4: Node,
      new c5: Node, new c6: Node)
    requires fresh(n) && fresh(c1) && fresh(c2) && fresh(c3) && fresh(c4) && fresh(c5) && fresh(c6)
    requires n.fields == OPETFields(c1, c2, c3, c4, c5, c6)
    ensures fresh(NodeAndChildren(n))
  {
    OPETChildren(c1, c2, c3, c4, c5, c6);
  }

  /** `new OPET()`. */
  method NewOPET() returns (n: Node)
    ensures fresh(NodeAndChildren(n)) && DefaultNode(n, OPET)
    ensures
      exists c1: Node, c2: Node, c3: Node, c4: Node, c5: Node, c6: Node ::
        n.fields == OPETFields(c1, c2, c3, c4, c5, c6)
  {
    var c1 := NewVolume();
    var c2 := NewVolume();
    var c3 := NewVolume();
    var c4 := NewVolume();
    var c5 := NewVolume();
    var c6 := NewVolume();
    n := new Node(OPET, OPETFields(c1, c2, c3, c4, c5, c6));
    OPETFresh(n, c1, c2, c3, c4, c5, c6);
    OPETDefault(n, c1, c2, c3, c4, c5, c6);
  }

  /** The fields `new SPECThead()` stores, given the nodes it builds for them. */
  function SPECTheadFields(c1: Node, c2: Node, c3: Node): map<string, JsValue>
  {
    map[
      "base" := Ref(c1),
      "crystal" := Ref(c2),
      "pixel" := Ref(c3)]
  }

  /** The keys `new SPECThead()` stores are the keys `SPECThead.input_type` describes. */
  lemma SPECTheadKeys(c1: Node, c2: Node, c3: Node)
    ensures var f := SPECTheadFields(c1, c2, c3);
      forall key :: key in f <==> Corrected(SPECThead, key, SPECTheadInputType(key)).Some?
  {
  }

  /** Each field `new SPECThead()` stores holds the initial value of its descriptor. */
  lemma SPECTheadFieldsFit(c1: Node, c2: Node, c3: Node)
    requires c1.cls == Volume && c2.cls == Volume && c3.cls == Volume
    ensures var f := SPECTheadFields(c1, c2, c3);
      forall key :: key in f ==>
        var d := Corrected(SPECThead, key, SPECTheadInputType(key));
        d.Some? && FieldFits(SPECThead, key, f[key], d.value, true)
  {
  }

  /** The fields `new SPECThead()` stores conform to `SPECThead.input_type`. */
  lemma SPECTheadConforms(c1: Node, c2: Node, c3: Node)
    requires c1.cls == Volume && c2.cls == Volume && c3.cls == Volume
    ensures Conforms(SPECThead, SPECTheadFields(c1, c2, c3), true)
  {
    forall key
      ensures InputType(SPECThead, key) == Corrected(SPECThead, key, SPECTheadInputType(key))
    {
      InputTypeOfSPECThead(key);
    }
    SPECTheadKeys(c1, c2, c3);
    SPECTheadFieldsFit(c1, c2, c3);
  }

  /** The nodes the fields of `new SPECThead()` hold are the ones it builds for them. */
  lemma SPECTheadChildren(c1: Node, c2: Node, c3: Node)
    ensures forall x :: x in ChildNodes(SPECTheadFields(c1, c2, c3)) ==>
      x == c1 || x == c2 || x == c3
  {
  }

  /** The field of `new SPECThead()` that holds each node it builds. */
  function SPECTheadOwner(c1: Node, c2: Node, c3: Node): map<Node, string>
  {
    map[c1 := "base", c2 := "crystal", c3 := "pixel"]
  }

  /** Each node the fields of `new SPECThead()` hold is held at one place only. */
  lemma SPECTheadUnshared(c1: Node, c2: Node, c3: Node)
    requires c1.cls == Volume && c2.cls == Volume && c3.cls == Volume && c1 != c2 && c1 != c3 &&
      c2 != c3
    ensures Unshared(SPECTheadFields(c1, c2, c3))
  {
    UnsharedByOwner(SPECTheadFields(c1, c2, c3), SPECTheadOwner(c1, c2, c3));
  }

  /** A node that holds the fields of `new SPECThead()`, and whose child nodes
      are built for it and are not the node itself, is what `new SPECThead()` builds. */
  lemma SPECTheadDefault(n: Node, c1: Node, c2: Node, c3: Node)
    requires n.cls == SPECThead && n.fields == SPECTheadFields(c1, c2, c3)
    requires BuiltChild(n, c1) && BuiltChild(n, c2) && BuiltChild(n, c3) && c1.cls == Volume &&
      c2.cls == Volume && c3.cls == Volume && c1 != c2 && c1 != c3 && c2 != c3
    ensures DefaultNode(n, SPECThead)
    ensures forall x :: x in ChildNodes(n.fields) ==> x == c1 || x == c2 || x == c3
  {
    SPECTheadConforms(c1, c2, c3);
    SPECTheadChildren(c1, c2, c3);
    SPECTheadUnshared(c1, c2, c3);
  }

  /** `new SPECThead()` allocates the node it returns and every node its fields hold. */
  twostate lemma SPECTheadFresh(new n: Node, new c1: Node, new c2: Node, new c3: Node)
    requires fresh(n) && fresh(c1) && fresh(c2) && fresh(c3)
    requires n.fields == SPECTheadFields(c1, c2, c3)
    ensures fresh(NodeAndChildren(n))
  {
    SPECTheadChildren(c1, c2, c3);
  }

  /** `new SPECThead()`. */
  method NewSPECThead() returns (n: Node)
    ensures fresh(NodeAndChildren(n)) && DefaultNode(n, SPECThead)
    ensures exists c1: Node, c2: Node, c3: Node :: n.fields == SPECTheadFields(c1, c2, c3)
  {
    var c1 := NewVolume();
    var c2 := NewVolume();
    var c3 := NewVolume();
    n := new Node(SPECThead, SPECTheadFields(c1, c2, c3));
    SPECTheadFresh(n, c1, c2, c3);
    SPECTheadDefault(n, c1, c2, c3);
  }

  /** The fields `new Volume()` stores, given the nodes it builds for them. */
  function VolumeFields(c1: Node): map<string, JsValue>
  {
    map[
      "name" := Str(""),
      "shape" := Undefined,
      "material" := Str(""),
      "attach" := Str(""),
      "appearance" := Ref(c1)]
  }

  /** The keys `new Volume()` stores are the keys `Volume.input_type` describes. */
  lemma VolumeKeys(c1: Node)
    ensures var f := VolumeFields(c1);
      forall key :: key in f <==> Corrected(Volume, key, VolumeInputType(key)).Some?
  {
  }

  /** Each field `new Volume()` stores holds the initial value of its descriptor. */
  lemma VolumeFieldsFit(c1: Node)
    requires c1.cls == Appearance
    ensures var f := VolumeFields(c1);
      forall key :: key in f ==>
        var d := Corrected(Volume, key, VolumeInputType(key));
        d.Some? && FieldFits(Volume, key, f[key], d.value, true)
  {
  }

  /** The fields `new Volume()` stores conform to `Volume.input_type`. */
  lemma VolumeConforms(c1: Node)
    requires c1.cls == Appearance
    ensures Conforms(Volume, VolumeFields(c1), true)
  {
    forall key
      ensures InputType(Volume, key) == Corrected(Volume, key, VolumeInputType(key))
    {
      InputTypeOfVolume(key);
    }
    VolumeKeys(c1);
    VolumeFieldsFit(c1);
  }

  /** The nodes the fields of `new Volume()` hold are the ones it builds for them. */
  lemma VolumeChildren(c1: Node)
    ensures forall x :: x in ChildNodes(VolumeFields(c1)) ==>
      x == c1
  {
  }

  /** The field of `new Volume()` that holds each node it builds. */
  function VolumeOwner(c1: Node): map<Node, string>
  {
    map[c1 := "appearance"]
  }

  /** The fields `name`, `shape`, `material` of `new Volume()` hold only nodes it gives to them. */
  lemma VolumeOwned1(c1: Node)
    requires c1.cls == Appearance
    ensures var f := VolumeFields(c1);
      forall key :: key in f && key in ["name", "shape", "material"] ==>
        OwnedBy(f[key], key, VolumeOwner(c1))
  {
  }

  /** The fields `attach`, `appearance` of `new Volume()` hold only nodes it gives to them. */
  lemma VolumeOwned2(c1: Node)
    requires c1.cls == Appearance
    ensures var f := VolumeFields(c1);
      forall key :: key in f && key in ["attach", "appearance"] ==>
        OwnedBy(f[key], key, VolumeOwner(c1))
  {
  }

  /** Each node the fields of `new Volume()` hold is held at one place only. */
  lemma VolumeUnshared(c1: Node)
    requires c1.cls == Appearance
    ensures Unshared(VolumeFields(c1))
  {
    VolumeOwned1(c1);
    VolumeOwned2(c1);
    UnsharedByOwner(VolumeFields(c1), VolumeOwner(c1));
  }

  /** A node that holds the fields of `new Volume()`, and whose child nodes
      are built for it and are not the node itself, is what `new Volume()` builds. */
  lemma VolumeDefault(n: Node, c1: Node)
    requires n.cls == Volume && n.fields == VolumeFields(c1)
    requires BuiltChild(n, c1) && c1.cls == Appearance
    ensures DefaultNode(n, Volume)
    ensures forall x :: x in ChildNodes(n.fields) ==> x == c1
  {
    VolumeConforms(c1);
    VolumeChildren(c1);
    VolumeUnshared(c1);
  }

  /** `new Volume()` allocates the node it returns and every node its fields hold. */
  twostate lemma VolumeFresh(new n: Node, new c1: Node)
    requires fresh(n) && fresh(c1)
    requires n.fields == VolumeFields(c1)
    ensures fresh(NodeAndChildren(n))
  {
    VolumeChildren(c1);
  }

  /** `new Volume()`. */
  method NewVolume() returns (n: Node)
    ensures fresh(NodeAndChildren(n)) && DefaultNode(n, Volume)
    ensures exists c1: Node :: n.fields == VolumeFields(c1)
  {
    var c1 := NewAppearance();
    n := new Node(Volume, VolumeFields(c1));
    VolumeFresh(n, c1);
    VolumeDefault(n, c1);
  }

  /** The fields `new Box()` stores, given the nodes it builds for them. */
  function BoxFields(c1: Node): map<string, JsValue>
  {
    map[
      "size" := Ref(c1)]
  }

  /** The fields `new Box()` stores conform to `Box.input_type`. */
  lemma BoxConforms(c1: Node)
    requires c1.cls == Vec3
    ensures Conforms(Box, BoxFields(c1), true)
  {
  }

  /** The nodes the fields of `new Box()` hold are the ones it builds for them. */
  lemma BoxChildren(c1: Node)
    ensures forall x :: x in ChildNodes(BoxFields(c1)) ==>
      x == c1
  {
  }

  /** The field of `new Box()` that holds each node it builds. */
  function BoxOwner(c1: Node): map<Node, string>
  {
    map[c1 := "size"]
  }

  /** Each node the fields of `new Box()` hold is held at one place only. */
  lemma BoxUnshared(c1: Node)
    requires c1.cls == Vec3
    ensures Unshared(BoxFields(c1))
  {
    UnsharedByOwner(BoxFields(c1), BoxOwner(c1));
  }

  /** A node that holds the fields of `new Box()`, and whose child nodes
      are built for it and are not the node itself, is what `new Box()` builds. */
  lemma BoxDefault(n: Node, c1: Node)
    requires n.cls == Box && n.fields == BoxFields(c1)
    requires BuiltChild(n, c1) && c1.cls == Vec3
    ensures DefaultNode(n, Box)
    ensures forall x :: x in ChildNodes(n.fields) ==> x == c1
  {
    BoxConforms(c1);
    BoxChildren(c1);
    BoxUnshared(c1);
  }

  /** `new Box()` allocates the node it returns and every node its fields hold. */
  twostate lemma BoxFresh(new n: Node, new c1: Node)
    requires fresh(n) && fresh(c1)
    requires n.fields == BoxFields(c1)
    ensures fresh(NodeAndChildren(n))
  {
    BoxChildren(c1);
  }

  /** `new Box()`. */
  method NewBox() returns (n: Node)
    ensures fresh(NodeAndChildren(n)) && DefaultNode(n, Box)
    ensures exists c1: Node :: n.fields == BoxFields(c1)
  {
    var c1 := NewVec3();
    n := new Node(Box, BoxFields(c1));
    BoxFresh(n, c1);
    BoxDefault(n, c1);
  }

  /** The fields `new Sphere()` stores, given the nodes it builds for them. */
  function SphereFields(c1: Node, c2: Node, c3: Node, c4: Node, c5: Node,
      c6: Node): map<string, JsValue>
  {
    map[
      "rmin" := Ref(c1),
      "rmax" := Ref(c2),
      "phi_start" := Ref(c3),
      "delta_phi" := Ref(c4),
      "theta_start" := Ref(c5),
      "delta_theta" := Ref(c6)]
  }

  /** The keys `new Sphere()` stores are the keys `Sphere.input_type` describes. */
  lemma SphereKeys(c1: Node, c2: Node, c3: Node, c4: Node, c5: Node, c6: Node)
    ensures var f := SphereFields(c1, c2, c3, c4, c5, c6);
      forall key :: key in f <==> Corrected(Sphere, key, SphereInputType(key)).Some?
  {
  }

  /** Each field `new Sphere()` stores holds the initial value of its descriptor. */
  lemma SphereFieldsFit(c1: Node, c2: Node, c3: Node, c4: Node, c5: Node, c6: Node)
    requires c1.cls == Value && c2.cls == Value && c3.cls == Value && c4.cls == Value &&
      c5.cls == Value && c6.cls == Value
    ensures var f := SphereFields(c1, c2, c3, c4, c5, c6);
      forall key :: key in f ==>
        var d := Corrected(Sphere, key, SphereInputType(key));
        d.Some? && FieldFits(Sphere, key, f[key], d.value, true)
  {
  }

  /** The fields `new Sphere()` stores conform to `Sphere.input_type`. */
  lemma SphereConforms(c1: Node, c2: Node, c3: Node, c4: Node, c5: Node, c6: Node)
    requires c1.cls == Value && c2.cls == Value && c3.cls == Value && c4.cls == Value &&
      c5.cls == Value && c6.cls == Value
    ensures Conforms(Sphere, SphereFields(c1, c2, c3, c4, c5, c6), true)
  {
    forall key
      ensures InputType(Sphere, key) == Corrected(Sphere, key, SphereInputType(key))
    {
      InputTypeOfSphere(key);
    }
    SphereKeys(c1, c2, c3, c4, c5, c6);
    SphereFieldsFit(c1, c2, c3, c4, c5, c6);
  }

  /** The nodes the fields of `new Sphere()` hold are the ones it builds for them. */
  lemma SphereChildren(c1: Node, c2: Node, c3: Node, c4: Node, c5: Node, c6: Node)
    ensures forall x :: x in ChildNodes(SphereFields(c1, c2, c3, c4, c5, c6)) ==>
      x == c1 || x == c2 || x == c3 || x == c4 || x == c5 || x == c6
  {
  }

  /** The field of `new Sphere()` that holds each node it builds. */
  function SphereOwner(c1: Node, c2: Node, c3: Node, c4: Node, c5: Node,
      c6: Node): map<Node, string>
  {
    map[c1 := "rmin", c2 := "rmax", c3 := "phi_start", c4 := "delta_phi", c5 := "theta_start",
      c6 := "delta_theta"]
  }

  /** The fields `rmin`, `rmax`, `phi_start` of `new Sphere()` hold only nodes it gives to them. */
  lemma SphereOwned1(c1: Node, c2: Node, c3: Node, c4: Node, c5: Node, c6: Node)
    requires c1.cls == Value && c2.cls == Value && c3.cls == Value && c4.cls == Value &&
      c5.cls == Value && c6.cls == Value && c1 != c2 && c1 != c3 && c1 != c4 && c1 != c5 &&
      c1 != c6 && c2 != c3 && c2 != c4 && c2 != c5 && c2 != c6 && c3 != c4 && c3 != c5 &&
      c3 != c6 && c4 != c5 && c4 != c6 && c5 != c6
    ensures var f := SphereFields(c1, c2, c3, c4, c5, c6);
      forall key :: key in f && key in ["rmin", "rmax", "phi_start"] ==>
        OwnedBy(f[key], key, SphereOwner(c1, c2, c3, c4, c5, c6))
  {
  }

  /** The fields `delta_phi`, `theta_start`, `delta_theta` of `new Sphere()` hold only nodes it
      gives to them. */
  lemma SphereOwned2(c1: Node, c2: Node, c3: Node, c4: Node, c5: Node, c6: Node)
    requires c1.cls == Value && c2.cls == Value && c3.cls == Value && c4.cls == Value &&
      c5.cls == Value && c6.cls == Value && c1 != c2 && c1 != c3 && c1 != c4 && c1 != c5 &&
      c1 != c6 && c2 != c3 && c2 != c4 && c2 != c5 && c2 != c6 && c3 != c4 && c3 != c5 &&
      c3 != c6 && c4 != c5 && c4 != c6 && c5 != c6
    ensures var f := SphereFields(c1, c2, c3, c4, c5, c6);
      forall key :: key in f && key in ["delta_phi", "theta_start", "delta_theta"] ==>
        OwnedBy(f[key], key, SphereOwner(c1, c2, c3, c4, c5, c6))
  {
  }

  /** Each node the fields of `new Sphere()` hold is held at one place only. */
  lemma SphereUnshared(c1: Node, c2: Node, c3: Node, c4: Node, c5: Node, c6: Node)
    requires c1.cls == Value && c2.cls == Value && c3.cls == Value && c4.cls == Value &&
      c5.cls == Value && c6.cls == Value && c1 != c2 && c1 != c3 && c1 != c4 && c1 != c5 &&
      c1 != c6 && c2 != c3 && c2 != c4 && c2 != c5 && c2 != c6 && c3 != c4 && c3 != c5 &&
      c3 != c6 && c4 != c5 && c4 != c6 && c5 != c6
    ensures Unshared(SphereFields(c1, c2, c3, c4, c5, c6))
  {
    SphereOwned1(c1, c2, c3, c4, c5, c6);
    SphereOwned2(c1, c2, c3, c4, c5, c6);
    UnsharedByOwner(SphereFields(c1, c2, c3, c4, c5, c6), SphereOwner(c1, c2, c3, c4, c5, c6));
  }

  /** A node that holds the fields of `new Sphere()`, and whose child nodes
      are built for it and are not the node itself, is what `new Sphere()` builds. */
  lemma SphereDefault(n: Node, c1: Node, c2: Node, c3: Node, c4: Node, c5: Node, c6: Node)
    requires n.cls == Sphere && n.fields == SphereFields(c1, c2, c3, c4, c5, c6)
    requires BuiltChild(n, c1) && BuiltChild(n, c2) && BuiltChild(n, c3) && BuiltChild(n, c4) &&
      BuiltChild(n, c5) && BuiltChild(n, c6) && c1.cls == Value && c2.cls == Value &&
      c3.cls == Value && c4.cls == Value && c5.cls == Value && c6.cls == Value && c1 != c2 &&
      c1 != c3 && c1 != c4 && c1 != c5 && c1 != c6 && c2 != c3 && c2 != c4 && c2 != c5 &&
      c2 != c6 && c3 != c4 && c3 != c5 && c3 != c6 && c4 != c5 && c4 != c6 && c5 != c6
    ensures DefaultNode(n, Sphere)
    ensures forall x :: x in ChildNodes(n.fields) ==>
      x == c1 || x == c2 || x == c3 || x == c4 || x == c5 || x == c6
  {
    SphereConforms(c1, c2, c3, c4, c5, c6);
    SphereChildren(c1, c2, c3, c4, c5, c6);
    SphereUnshared(c1, c2, c3, c4, c5, c6);
  }

  /** `new Sphere()` allocates the node it returns and every node its fields hold. */
  twostate lemma SphereFresh(new n: Node, new c1: Node, new c2: Node, new c3: Node, new c4: Node,
      new c5: Node, new c6: Node)
    requires fresh(n) && fresh(c1) && fresh(c2) && fresh(c3) && fresh(c4) && fresh(c5) && fresh(c6)
    requires n.fields == SphereFields(c1, c2, c3, c4, c5, c6)
    ensures fresh(NodeAndChildren(n))
  {
    SphereChildren(c1, c2, c3, c4, c5, c6);
  }

  /** `new Sphere()`. */
  method NewSphere() returns (n: Node)
    ensures fresh(NodeAndChildren(n)) && DefaultNode(n, Sphere)
    ensures
      exists c1: Node, c2: Node, c3: Node, c4: Node, c5: Node, c6: Node ::
        n.fields == SphereFields(c1, c2, c3, c4, c5, c6)
  {
    var c1 := NewValue();
    var c2 := NewValue();
    var c3 := NewValue();
    var c4 := NewValue();
    var c5 := NewValue();
    var c6 := NewValue();
    n := new Node(Sphere, SphereFields(c1, c2, c3, c4, c5, c6));
    SphereFresh(n, c1, c2, c3, c4, c5, c6);
    SphereDefault(n, c1, c2, c3, c4, c5, c6);
  }

  /** The fields `new Cylinder()` stores, given the nodes it builds for them. */
  function CylinderFields(c1: Node, c2: Node, c3: Node, c4: Node, c5: Node): map<string, JsValue>
  {
    map[
      "rmin" := Ref(c1),
      "rmax" := Ref(c2),
      "height" := Ref(c3),
      "phi_start" := Ref(c4),
      "delta_phi" := Ref(c5)]
  }

  /** The keys `new Cylinder()` stores are the keys `Cylinder.input_type` describes. */
  lemma CylinderKeys(c1: Node, c2: Node, c3: Node, c4: Node, c5: Node)
    ensures var f := CylinderFields(c1, c2, c3, c4, c5);
      forall key :: key in f <==> Corrected(Cylinder, key, CylinderInputType(key)).Some?
  {
  }

  /** Each field `new Cylinder()` stores holds the initial value of its descriptor. */
  lemma CylinderFieldsFit(c1: Node, c2: Node, c3: Node, c4: Node, c5: Node)
    requires c1.cls == Value && c2.cls == Value && c3.cls == Value && c4.cls == Value &&
      c5.cls == Value
    ensures var f := CylinderFields(c1, c2, c3, c4, c5);
      forall key :: key in f ==>
        var d := Corrected(Cylinder, key, CylinderInputType(key));
        d.Some? && FieldFits(Cylinder, key, f[key], d.value, true)
  {
  }

  /** The fields `new Cylinder()` stores conform to `Cylinder.input_type`. */
  lemma CylinderConforms(c1: Node, c2: Node, c3: Node, c4: Node, c5: Node)
    requires c1.cls == Value && c2.cls == Value && c3.cls == Value && c4.cls == Value &&
      c5.cls == Value
    ensures Conforms(Cylinder, CylinderFields(c1, c2, c3, c4, c5), true)
  {
    forall key
      ensures InputType(Cylinder, key) == Corrected(Cylinder, key, CylinderInputType(key))
    {
      InputTypeOfCylinder(key);
    }
    CylinderKeys(c1, c2, c3, c4, c5);
    CylinderFieldsFit(c1, c2, c3, c4, c5);
  }

  /** The nodes the fields of `new Cylinder()` hold are the ones it builds for them. */
  lemma CylinderChildren(c1: Node, c2: Node, c3: Node, c4: Node, c5: Node)
    ensures forall x :: x in ChildNodes(CylinderFields(c1, c2, c3, c4, c5)) ==>
      x == c1 || x == c2 || x == c3 || x == c4 || x == c5
  {
  }

  /** The field of `new Cylinder()` that holds each node it builds. */
  function CylinderOwner(c1: Node, c2: Node, c3: Node, c4: Node, c5: Node): map<Node, string>
  {
    map[c1 := "rmin", c2 := "rmax", c3 := "height", c4 := "phi_start", c5 := "delta_phi"]
  }

  /** The fields `rmin`, `rmax`, `height` of `new Cylinder()` hold only nodes it gives to them. */
  lemma CylinderOwned1(c1: Node, c2: Node, c3: Node, c4: Node, c5: Node)
    requires c1.cls == Value && c2.cls == Value && c3.cls == Value && c4.cls == Value &&
      c5.cls == Value && c1 != c2 && c1 != c3 && c1 != c4 && c1 != c5 && c2 != c3 && c2 != c4 &&
      c2 != c5 && c3 != c4 && c3 != c5 && c4 != c5
    ensures var f := CylinderFields(c1, c2, c3, c4, c5);
      forall key :: key in f && key in ["rmin", "rmax", "height"] ==>
        OwnedBy(f[key], key, CylinderOwner(c1, c2, c3, c4, c5))
  {
  }

  /** The fields `phi_start`, `delta_phi` of `new Cylinder()` hold only nodes it gives to them. */
  lemma CylinderOwned2(c1: Node, c2: Node, c3: Node, c4: Node, c5: Node)
    requires c1.cls == Value && c2.cls == Value && c3.cls == Value && c4.cls == Value &&
      c5.cls == Value && c1 != c2 && c1 != c3 && c1 != c4 && c1 != c5 && c2 != c3 && c2 != c4 &&
      c2 != c5 && c3 != c4 && c3 != c5 && c4 != c5
    ensures var f := CylinderFields(c1, c2, c3, c4, c5);
      forall key :: key in f && key in ["phi_start", "delta_phi"] ==>
        OwnedBy(f[key], key, CylinderOwner(c1, c2, c3, c4, c5))
  {
  }

  /** Each node the fields of `new Cylinder()` hold is held at one place only. */
  lemma CylinderUnshared(c1: Node, c2: Node, c3: Node, c4: Node, c5: Node)
    requires c1.cls == Value && c2.cls == Value && c3.cls == Value && c4.cls == Value &&
      c5.cls == Value && c1 != c2 && c1 != c3 && c1 != c4 && c1 != c5 && c2 != c3 && c2 != c4 &&
      c2 != c5 && c3 != c4 && c3 != c5 && c4 != c5
    ensures Unshared(CylinderFields(c1, c2, c3, c4, c5))
  {
    CylinderOwned1(c1, c2, c3, c4, c5);
    CylinderOwned2(c1, c2, c3, c4, c5);
    UnsharedByOwner(CylinderFields(c1, c2, c3, c4, c5), CylinderOwner(c1, c2, c3, c4, c5));
  }

  /** A node that holds the fields of `new Cylinder()`, and whose child nodes
      are built for it and are not the node itself, is what `new Cylinder()` builds. */
  lemma CylinderDefault(n: Node, c1: Node, c2: Node, c3: Node, c4: Node, c5: Node)
    requires n.cls == Cylinder && n.fields == CylinderFields(c1, c2, c3, c4, c5)
    requires BuiltChild(n, c1) && BuiltChild(n, c2) && BuiltChild(n, c3) && BuiltChild(n, c4) &&
      BuiltChild(n, c5) && c1.cls == Value && c2.cls == Value && c3.cls == Value &&
      c4.cls == Value && c5.cls == Value && c1 != c2 && c1 != c3 && c1 != c4 && c1 != c5 &&
      c2 != c3 && c2 != c4 && c2 != c5 && c3 != c4 && c3 != c5 && c4 != c5
    ensures DefaultNode(n, Cylinder)
    ensures forall x :: x in ChildNodes(n.fields) ==>
      x == c1 || x == c2 || x == c3 || x == c4 || x == c5
  {
    CylinderConforms(c1, c2, c3, c4, c5);
    CylinderChildren(c1, c2, c3, c4, c5);
    CylinderUnshared(c1, c2, c3, c4, c5);
  }

  /** `new Cylinder()` allocates the node it returns and every node its fields hold. */
  twostate lemma CylinderFresh(new n: Node, new c1: Node, new c2: Node, new c3: Node, new c4: Node,
      new c5: Node)
    requires fresh(n) && fresh(c1) && fresh(c2) && fresh(c3) && fresh(c4) && fresh(c5)
    requires n.fields == CylinderFields(c1, c2, c3, c4, c5)
    ensures fresh(NodeAndChildren(n))
  {
    CylinderChildren(c1, c2, c3, c4, c5);
  }

  /** `new Cylinder()`. */
  method NewCylinder() returns (n: Node)
    ensures fresh(NodeAndChildren(n)) && DefaultNode(n, Cylinder)
    ensures
      exists c1: Node, c2: Node, c3: Node, c4: Node, c5: Node ::
        n.fields == CylinderFields(c1, c2, c3, c4, c5)
  {
    var c1 := NewValue();
    var c2 := NewValue();
    var c3 := NewValue();
    var c4 := NewValue();
    var c5 := NewValue();
    n := new Node(Cylinder, CylinderFields(c1, c2, c3, c4, c5));
    CylinderFresh(n, c1, c2, c3, c4, c5);
    CylinderDefault(n, c1, c2, c3, c4, c5);
  }

  /** The fields `new Cone()` stores, given the nodes it builds for them. */
  function ConeFields(c1: Node, c2: Node, c3: Node, c4: Node, c5: Node, c6: Node,
      c7: Node): map<string, JsValue>
  {
    map[
      "rmin1" := Ref(c1),
      "rmax1" := Ref(c2),
      "rmin2" := Ref(c3),
      "rmax2" := Ref(c4),
      "height" := Ref(c5),
      "phi_start" := Ref(c6),
      "delta_phi" := Ref(c7)]
  }

  /** The keys `new Cone()` stores are the keys `Cone.input_type` describes. */
  lemma ConeKeys(c1: Node, c2: Node, c3: Node, c4: Node, c5: Node, c6: Node, c7: Node)
    ensures var f := ConeFields(c1, c2, c3, c4, c5, c6, c7);
      forall key :: key in f <==> Corrected(Cone, key, ConeInputType(key)).Some?
  {
  }

  /** Each field `new Cone()` stores holds the initial value of its descriptor. */
  lemma ConeFieldsFit(c1: Node, c2: Node, c3: Node, c4: Node, c5: Node, c6: Node, c7: Node)
    requires c1.cls == Value && c2.cls == Value && c3.cls == Value && c4.cls == Value &&
      c5.cls == Value && c6.cls == Value && c7.cls == Value
    ensures var f := ConeFields(c1, c2, c3, c4, c5, c6, c7);
      forall key :: key in f ==>
        var d := Corrected(Cone, key, ConeInputType(key));
        d.Some? && FieldFits(Cone, key, f[key], d.value, true)
  {
  }

  /** The fields `new Cone()` stores conform to `Cone.input_type`. */
  lemma ConeConforms(c1: Node, c2: Node, c3: Node, c4: Node, c5: Node, c6: Node, c7: Node)
    requires c1.cls == Value && c2.cls == Value && c3.cls == Value && c4.cls == Value &&
      c5.cls == Value && c6.cls == Value && c7.cls == Value
    ensures Conforms(Cone, ConeFields(c1, c2, c3, c4, c5, c6, c7), true)
  {
    forall key
      ensures InputType(Cone, key) == Corrected(Cone, key, ConeInputType(key))
    {
      InputTypeOfCone(key);
    }
    ConeKeys(c1, c2, c3, c4, c5, c6, c7);
    ConeFieldsFit(c1, c2, c3, c4, c5, c6, c7);
  }

  /** The nodes the fields of `new Cone()` hold are the ones it builds for them. */
  lemma ConeChildren(c1: Node, c2: Node, c3: Node, c4: Node, c5: Node, c6: Node, c7: Node)
    ensures forall x :: x in ChildNodes(ConeFields(c1, c2, c3, c4, c5, c6, c7)) ==>
      x == c1 || x == c2 || x == c3 || x == c4 || x == c5 || x == c6 || x == c7
  {
  }

  /** The field of `new Cone()` that holds each node it builds. */
  function ConeOwner(c1: Node, c2: Node, c3: Node, c4: Node, c5: Node, c6: Node,
      c7: Node): map<Node, string>
  {
    map[c1 := "rmin1", c2 := "rmax1", c3 := "rmin2", c4 := "rmax2", c5 := "height",
      c6 := "phi_start", c7 := "delta_phi"]
  }

  /** The fields `rmin1`, `rmax1`, `rmin2` of `new Cone()` hold only nodes it gives to them. */
  lemma ConeOwned1(c1: Node, c2: Node, c3: Node, c4: Node, c5: Node, c6: Node, c7: Node)
    requires c1.cls == Value && c2.cls == Value && c3.cls == Value && c4.cls == Value &&
      c5.cls == Value && c6.cls == Value && c7.cls == Value && c1 != c2 && c1 != c3 && c1 != c4 &&
      c1 != c5 && c1 != c6 && c1 != c7 && c2 != c3 && c2 != c4 && c2 != c5 && c2 != c6 &&
      c2 != c7 && c3 != c4 && c3 != c5 && c3 != c6 && c3 != c7 && c4 != c5 && c4 != c6 &&
      c4 != c7 && c5 != c6 && c5 != c7 && c6 != c7
    ensures var f := ConeFields(c1, c2, c3, c4, c5, c6, c7);
      forall key :: key in f && key in ["rmin1", "rmax1", "rmin2"] ==>
        OwnedBy(f[key], key, ConeOwner(c1, c2, c3, c4, c5, c6, c7))
  {
  }

  /** The fields `rmax2`, `height`, `phi_start`, `delta_phi` of `new Cone()` hold only nodes it
      gives to them. */
  lemma ConeOwned2(c1: Node, c2: Node, c3: Node, c4: Node, c5: Node, c6: Node, c7: Node)
    requires c1.cls == Value && c2.cls == Value && c3.cls == Value && c4.cls == Value &&
      c5.cls == Value && c6.cls == Value && c7.cls == Value && c1 != c2 && c1 != c3 && c1 != c4 &&
      c1 != c5 && c1 != c6 && c1 != c7 && c2 != c3 && c2 != c4 && c2 != c5 && c2 != c6 &&
      c2 != c7 && c3 != c4 && c3 != c5 && c3 != c6 && c3 != c7 && c4 != c5 && c4 != c6 &&
      c4 != c7 && c5 != c6 && c5 != c7 && c6 != c7
    ensures var f := ConeFields(c1, c2, c3, c4, c5, c6, c7);
      forall key :: key in f && key in ["rmax2", "height", "phi_start", "delta_phi"] ==>
        OwnedBy(f[key], key, ConeOwner(c1, c2, c3, c4, c5, c6, c7))
  {
  }

  /** Each node the fields of `new Cone()` hold is held at one place only. */
  lemma ConeUnshared(c1: Node, c2: Node, c3: Node, c4: Node, c5: Node, c6: Node, c7: Node)
    requires c1.cls == Value && c2.cls == Value && c3.cls == Value && c4.cls == Value &&
      c5.cls == Value && c6.cls == Value && c7.cls == Value && c1 != c2 && c1 != c3 && c1 != c4 &&
      c1 != c5 && c1 != c6 && c1 != c7 && c2 != c3 && c2 != c4 && c2 != c5 && c2 != c6 &&
      c2 != c7 && c3 != c4 && c3 != c5 && c3 != c6 && c3 != c7 && c4 != c5 && c4 != c6 &&
      c4 != c7 && c5 != c6 && c5 != c7 && c6 != c7
    ensures Unshared(ConeFields(c1, c2, c3, c4, c5, c6, c7))
  {
    ConeOwned1(c1, c2, c3, c4, c5, c6, c7);
    ConeOwned2(c1, c2, c3, c4, c5, c6, c7);
    UnsharedByOwner(ConeFields(c1, c2, c3, c4, c5, c6, c7), ConeOwner(c1, c2, c3, c4, c5, c6, c7));
  }

  /** A node that holds the fields of `new Cone()`, and whose child nodes
      are built for it and are not the node itself, is what `new Cone()` builds. */
  lemma ConeDefault(n: Node, c1: Node, c2: Node, c3: Node, c4: Node, c5: Node, c6: Node, c7: Node)
    requires n.cls == Cone && n.fields == ConeFields(c1, c2, c3, c4, c5, c6, c7)
    requires BuiltChild(n, c1) && BuiltChild(n, c2) && BuiltChild(n, c3) && BuiltChild(n, c4) &&
      BuiltChild(n, c5) && BuiltChild(n, c6) && BuiltChild(n, c7) && c1.cls == Value &&
      c2.cls == Value && c3.cls == Value && c4.cls == Value && c5.cls == Value && c6.cls == Value &&
      c7.cls == Value && c1 != c2 && c1 != c3 && c1 != c4 && c1 != c5 && c1 != c6 && c1 != c7 &&
      c2 != c3 && c2 != c4 && c2 != c5 && c2 != c6 && c2 != c7 && c3 != c4 && c3 != c5 &&
      c3 != c6 && c3 != c7 && c4 != c5 && c4 != c6 && c4 != c7 && c5 != c6 && c5 != c7 && c6 != c7
    ensures DefaultNode(n, Cone)
    ensures forall x :: x in ChildNodes(n.fields) ==>
      x == c1 || x == c2 || x == c3 || x == c4 || x == c5 || x == c6 || x == c7
  {
    ConeConforms(c1, c2, c3, c4, c5, c6, c7);
    ConeChildren(c1, c2, c3, c4, c5, c6, c7);
    ConeUnshared(c1, c2, c3, c4, c5, c6, c7);
  }

  /** `new Cone()` allocates the node it returns and every node its fields hold. */
  twostate lemma ConeFresh(new n: Node, new c1: Node, new c2: Node, new c3: Node, new c4: Node,
      new c5: Node, new c6: Node, new c7: Node)
    requires fresh(n) && fresh(c1) && fresh(c2) && fresh(c3) && fresh(c4) && fresh(c5) &&
      fresh(c6) && fresh(c7)
    requires n.fields == ConeFields(c1, c2, c3, c4, c5, c6, c7)
    ensures fresh(NodeAndChildren(n))
  {
    ConeChildren(c1, c2, c3, c4, c5, c6, c7);
  }

  /** `new Cone()`. */
  method NewCone() returns (n: Node)
    ensures fresh(NodeAndChildren(n)) && DefaultNode(n, Cone)
    ensures
      exists c1: Node, c2: Node, c3: Node, c4: Node, c5: Node, c6: Node, c7: Node ::
        n.fields == ConeFields(c1, c2, c3, c4, c5, c6, c7)
  {
    var c1 := NewValue();
    var c2 := NewValue();
    var c3 := NewValue();
    var c4 := NewValue();
    var c5 := NewValue();
    var c6 := NewValue();
    var c7 := NewValue();
    n := new Node(Cone, ConeFields(c1, c2, c3, c4, c5, c6, c7));
    ConeFresh(n, c1, c2, c3, c4, c5, c6, c7);
    ConeDefault(n, c1, c2, c3, c4, c5, c6, c7);
  }

  /** The fields `new Ellipsoid()` stores, given the nodes it builds for them. */
  function EllipsoidFields(c1: Node, c2: Node, c3: Node): map<string, JsValue>
  {
    map[
      "size" := Ref(c1),
      "z_bottom_cut" := Ref(c2),
      "z_top_cut" := Ref(c3)]
  }

  /** The keys `new Ellipsoid()` stores are the keys `Ellipsoid.input_type` describes. */
  lemma EllipsoidKeys(c1: Node, c2: Node, c3: Node)
    ensures var f := EllipsoidFields(c1, c2, c3);
      forall key :: key in f <==> Corrected(Ellipsoid, key, EllipsoidInputType(key)).Some?
  {
  }

  /** Each field `new Ellipsoid()` stores holds the initial value of its descriptor. */
  lemma EllipsoidFieldsFit(c1: Node, c2: Node, c3: Node)
    requires c1.cls == Vec3 && c2.cls == Value && c3.cls == Value
    ensures var f := EllipsoidFields(c1, c2, c3);
      forall key :: key in f ==>
        var d := Corrected(Ellipsoid, key, EllipsoidInputType(key));
        d.Some? && FieldFits(Ellipsoid, key, f[key], d.value, true)
  {
  }

  /** The fields `new Ellipsoid()` stores conform to `Ellipsoid.input_type`. */
  lemma EllipsoidConforms(c1: Node, c2: Node, c3: Node)
    requires c1.cls == Vec3 && c2.cls == Value && c3.cls == Value
    ensures Conforms(Ellipsoid, EllipsoidFields(c1, c2, c3), true)
  {
    forall key
      ensures InputType(Ellipsoid, key) == Corrected(Ellipsoid, key, EllipsoidInputType(key))
    {
      InputTypeOfEllipsoid(key);
    }
    EllipsoidKeys(c1, c2, c3);
    EllipsoidFieldsFit(c1, c2, c3);
  }

  /** The nodes the fields of `new Ellipsoid()` hold are the ones it builds for them. */
  lemma EllipsoidChildren(c1: Node, c2: Node, c3: Node)
    ensures forall x :: x in ChildNodes(EllipsoidFields(c1, c2, c3)) ==>
      x == c1 || x == c2 || x == c3
  {
  }

  /** The field of `new Ellipsoid()` that holds each node it builds. */
  function EllipsoidOwner(c1: Node, c2: Node, c3: Node): map<Node, string>
  {
    map[c1 := "size", c2 := "z_bottom_cut", c3 := "z_top_cut"]
  }

  /** Each node the fields of `new Ellipsoid()` hold is held at one place only. */
  lemma EllipsoidUnshared(c1: Node, c2: Node, c3: Node)
    requires c1.cls == Vec3 && c2.cls == Value && c3.cls == Value && c2 != c3
    ensures Unshared(EllipsoidFields(c1, c2, c3))
  {
    UnsharedByOwner(EllipsoidFields(c1, c2, c3), EllipsoidOwner(c1, c2, c3));
  }

  /** A node that holds the fields of `new Ellipsoid()`, and whose child nodes
      are built for it and are not the node itself, is what `new Ellipsoid()` builds. */
  lemma EllipsoidDefault(n: Node, c1: Node, c2: Node, c3: Node)
    requires n.cls == Ellipsoid && n.fields == EllipsoidFields(c1, c2, c3)
    requires BuiltChild(n, c1) && BuiltChild(n, c2) && BuiltChild(n, c3) && c1.cls == Vec3 &&
      c2.cls == Value && c3.cls == Value && c2 != c3
    ensures DefaultNode(n, Ellipsoid)
    ensures forall x :: x in ChildNodes(n.fields) ==> x == c1 || x == c2 || x == c3
  {
    EllipsoidConforms(c1, c2, c3);
    EllipsoidChildren(c1, c2, c3);
    EllipsoidUnshared(c1, c2, c3);
  }

  /** `new Ellipsoid()` allocates the node it returns and every node its fields hold. */
  twostate lemma EllipsoidFresh(new n: Node, new c1: Node, new c2: Node, new c3: Node)
    requires fresh(n) && fresh(c1) && fresh(c2) && fresh(c3)
    requires n.fields == EllipsoidFields(c1, c2, c3)
    ensures fresh(NodeAndChildren(n))
  {
    EllipsoidChildren(c1, c2, c3);
  }

  /** `new Ellipsoid()`. */
  method NewEllipsoid() returns (n: Node)
    ensures fresh(NodeAndChildren(n)) && DefaultNode(n, Ellipsoid)
    ensures exists c1: Node, c2: Node, c3: Node :: n.fields == EllipsoidFields(c1, c2, c3)
  {
    var c1 := NewVec3();
    var c2 := NewValue();
    var c3 := NewValue();
    n := new Node(Ellipsoid, EllipsoidFields(c1, c2, c3));
    EllipsoidFresh(n, c1, c2, c3);
    EllipsoidDefault(n, c1, c2, c3);
  }

  /** The fields `new EllipticalTube()` stores, given the nodes it builds for them. */
  function EllipticalTubeFields(c1: Node, c2: Node, c3: Node): map<string, JsValue>
  {
    map[
      "long" := Ref(c1),
      "short" := Ref(c2),
      "height" := Ref(c3)]
  }

  /** The keys `new EllipticalTube()` stores are the keys `EllipticalTube.input_type` describes. */
  lemma EllipticalTubeKeys(c1: Node, c2: Node, c3: Node)
    ensures var f := EllipticalTubeFields(c1, c2, c3);
      forall key :: key in f <==> Corrected(EllipticalTube, key, EllipticalTubeInputType(key)).Some?
  {
  }

  /** Each field `new EllipticalTube()` stores holds the initial value of its descriptor. */
  lemma EllipticalTubeFieldsFit(c1: Node, c2: Node, c3: Node)
    requires c1.cls == Value && c2.cls == Value && c3.cls == Value
    ensures var f := EllipticalTubeFields(c1, c2, c3);
      forall key :: key in f ==>
        var d := Corrected(EllipticalTube, key, EllipticalTubeInputType(key));
        d.Some? && FieldFits(EllipticalTube, key, f[key], d.value, true)
  {
  }

  /** The fields `new EllipticalTube()` stores conform to `EllipticalTube.input_type`. */
  lemma EllipticalTubeConforms(c1: Node, c2: Node, c3: Node)
    requires c1.cls == Value && c2.cls == Value && c3.cls == Value
    ensures Conforms(EllipticalTube, EllipticalTubeFields(c1, c2, c3), true)
  {
    forall key
      ensures InputType(EllipticalTube, key) ==
        Corrected(EllipticalTube, key, EllipticalTubeInputType(key))
    {
      InputTypeOfEllipticalTube(key);
    }
    EllipticalTubeKeys(c1, c2, c3);
    EllipticalTubeFieldsFit(c1, c2, c3);
  }

  /** The nodes the fields of `new EllipticalTube()` hold are the ones it builds for them. */
  lemma EllipticalTubeChildren(c1: Node, c2: Node, c3: Node)
    ensures forall x :: x in ChildNodes(EllipticalTubeFields(c1, c2, c3)) ==>
      x == c1 || x == c2 || x == c3
  {
  }

  /** The field of `new EllipticalTube()` that holds each node it builds. */
  function EllipticalTubeOwner(c1: Node, c2: Node, c3: Node): map<Node, string>
  {
    map[c1 := "long", c2 := "short", c3 := "height"]
  }

  /** Each node the fields of `new EllipticalTube()` hold is held at one place only. */
  lemma EllipticalTubeUnshared(c1: Node, c2: Node, c3: Node)
    requires c1.cls == Value && c2.cls == Value && c3.cls == Value && c1 != c2 && c1 != c3 &&
      c2 != c3
    ensures Unshared(EllipticalTubeFields(c1, c2, c3))
  {
    UnsharedByOwner(EllipticalTubeFields(c1, c2, c3), EllipticalTubeOwner(c1, c2, c3));
  }

  /** A node that holds the fields of `new EllipticalTube()`, and whose child nodes
      are built for it and are not the node itself, is what `new EllipticalTube()` builds. */
  lemma EllipticalTubeDefault(n: Node, c1: Node, c2: Node, c3: Node)
    requires n.cls == EllipticalTube && n.fields == EllipticalTubeFields(c1, c2, c3)
    requires BuiltChild(n, c1) && BuiltChild(n, c2) && BuiltChild(n, c3) && c1.cls == Value &&
      c2.cls == Value && c3.cls == Value && c1 != c2 && c1 != c3 && c2 != c3
    ensures DefaultNode(n, EllipticalTube)
    ensures forall x :: x in ChildNodes(n.fields) ==> x == c1 || x == c2 || x == c3
  {
    EllipticalTubeConforms(c1, c2, c3);
    EllipticalTubeChildren(c1, c2, c3);
    EllipticalTubeUnshared(c1, c2, c3);
  }

  /** `new EllipticalTube()` allocates the node it returns and every node its fields hold. */
  twostate lemma EllipticalTubeFresh(new n: Node, new c1: Node, new c2: Node, new c3: Node)
    requires fresh(n) && fresh(c1) && fresh(c2) && fresh(c3)
    requires n.fields == EllipticalTubeFields(c1, c2, c3)
    ensures fresh(NodeAndChildren(n))
  {
    EllipticalTubeChildren(c1, c2, c3);
  }

  /** `new EllipticalTube()`. */
  method NewEllipticalTube() returns (n: Node)
    ensures fresh(NodeAndChildren(n)) && DefaultNode(n, EllipticalTube)
    ensures exists c1: Node, c2: Node, c3: Node :: n.fields == EllipticalTubeFields(c1, c2, c3)
  {
    var c1 := NewValue();
    var c2 := NewValue();
    var c3 := NewValue();
    n := new Node(EllipticalTube, EllipticalTubeFields(c1, c2, c3));
    EllipticalTubeFresh(n, c1, c2, c3);
    EllipticalTubeDefault(n, c1, c2, c3);
  }

  /** The fields `new Tessellated()` stores. */
  function TessellatedFields(): map<string, JsValue>
  {
    map[
      "path_to_vertices_file" := Str("")]
  }

  /** The fields `new Tessellated()` stores conform to `Tessellated.input_type`. */
  lemma TessellatedConforms()
    ensures Conforms(Tessellated, TessellatedFields(), true)
  {
  }

  /** The fields of `new Tessellated()` hold no node, and so share none. */
  lemma TessellatedChildren()
    ensures ChildNodes(TessellatedFields()) == {}
    ensures Unshared(TessellatedFields())
  {
  }

  /** A node that holds the fields of `new Tessellated()`, and whose child nodes
      are built for it and are not the node itself, is what `new Tessellated()` builds. */
  lemma TessellatedDefault(n: Node)
    requires n.cls == Tessellated && n.fields == TessellatedFields()
    ensures DefaultNode(n, Tessellated)
    ensures ChildNodes(n.fields) == {}
  {
    TessellatedConforms();
    TessellatedChildren();
  }

  /** `new Tessellated()`. */
  method NewTessellated() returns (n: Node)
    ensures fresh(NodeAndChildren(n)) && DefaultNode(n, Tessellated)
    ensures n.fields == TessellatedFields()
  {
    n := new Node(Tessellated, TessellatedFields());
    TessellatedDefault(n);
  }

  /** The fields `new TetMeshBox()` stores. */
  function TetMeshBoxFields(): map<string, JsValue>
  {
    map[
      "path_to_ele_file" := Str(""),
      "unit_of_length" := Str(""),
      "path_to_attribute_map" := Str("")]
  }

  /** The keys `new TetMeshBox()` stores are the keys `TetMeshBox.input_type` describes. */
  lemma TetMeshBoxKeys()
    ensures var f := TetMeshBoxFields();
      forall key :: key in f <==> Corrected(TetMeshBox, key, TetMeshBoxInputType(key)).Some?
  {
  }

  /** Each field `new TetMeshBox()` stores holds the initial value of its descriptor. */
  lemma TetMeshBoxFieldsFit()
    ensures var f := TetMeshBoxFields();
      forall key :: key in f ==>
        var d := Corrected(TetMeshBox, key, TetMeshBoxInputType(key));
        d.Some? && FieldFits(TetMeshBox, key, f[key], d.value, true)
  {
  }

  /** The fields `new TetMeshBox()` stores conform to `TetMeshBox.input_type`. */
  lemma TetMeshBoxConforms()
    ensures Conforms(TetMeshBox, TetMeshBoxFields(), true)
  {
    forall key
      ensures InputType(TetMeshBox, key) == Corrected(TetMeshBox, key, TetMeshBoxInputType(key))
    {
      InputTypeOfTetMeshBox(key);
    }
    TetMeshBoxKeys();
    TetMeshBoxFieldsFit();
  }

  /** The fields of `new TetMeshBox()` hold no node, and so share none. */
  lemma TetMeshBoxChildren()
    ensures ChildNodes(TetMeshBoxFields()) == {}
    ensures Unshared(TetMeshBoxFields())
  {
  }

  /** A node that holds the fields of `new TetMeshBox()`, and whose child nodes
      are built for it and are not the node itself, is what `new TetMeshBox()` builds. */
  lemma TetMeshBoxDefault(n: Node)
    requires n.cls == TetMeshBox && n.fields == TetMeshBoxFields()
    ensures DefaultNode(n, TetMeshBox)
    ensures ChildNodes(n.fields) == {}
  {
    TetMeshBoxConforms();
    TetMeshBoxChildren();
  }

  /** `new TetMeshBox()`. */
  method NewTetMeshBox() returns (n: Node)
    ensures fresh(NodeAndChildren(n)) && DefaultNode(n, TetMeshBox)
    ensures n.fields == TetMeshBoxFields()
  {
    n := new Node(TetMeshBox, TetMeshBoxFields());
    TetMeshBoxDefault(n);
  }

  /** The fields `new TRPD()` stores, given the nodes it builds for them. */
  function TRPDFields(c1: Node, c2: Node, c3: Node, c4: Node, c5: Node, c6: Node,
      c7: Node): map<string, JsValue>
  {
    map[
      "x1" := Ref(c1),
      "y1" := Ref(c2),
      "x2" := Ref(c3),
      "y2" := Ref(c4),
      "z" := Ref(c5),
      "box_size" := Ref(c6),
      "box_pos" := Ref(c7)]
  }

  /** The keys `new TRPD()` stores are the keys `TRPD.input_type` describes. */
  lemma TRPDKeys(c1: Node, c2: Node, c3: Node, c4: Node, c5: Node, c6: Node, c7: Node)
    ensures var f := TRPDFields(c1, c2, c3, c4, c5, c6, c7);
      forall key :: key in f <==> Corrected(TRPD, key, TRPDInputType(key)).Some?
  {
  }

  /** Each field `new TRPD()` stores holds the initial value of its descriptor. */
  lemma TRPDFieldsFit(c1: Node, c2: Node, c3: Node, c4: Node, c5: Node, c6: Node, c7: Node)
    requires c1.cls == Value && c2.cls == Value && c3.cls == Value && c4.cls == Value &&
      c5.cls == Value && c6.cls == Vec3 && c7.cls == Vec3
    ensures var f := TRPDFields(c1, c2, c3, c4, c5, c6, c7);
      forall key :: key in f ==>
        var d := Corrected(TRPD, key, TRPDInputType(key));
        d.Some? && FieldFits(TRPD, key, f[key], d.value, true)
  {
  }

  /** The fields `new TRPD()` stores conform to `TRPD.input_type`. */
  lemma TRPDConforms(c1: Node, c2: Node, c3: Node, c4: Node, c5: Node, c6: Node, c7: Node)
    requires c1.cls == Value && c2.cls == Value && c3.cls == Value && c4.cls == Value &&
      c5.cls == Value && c6.cls == Vec3 && c7.cls == Vec3
    ensures Conforms(TRPD, TRPDFields(c1, c2, c3, c4, c5, c6, c7), true)
  {
    forall key
      ensures InputType(TRPD, key) == Corrected(TRPD, key, TRPDInputType(key))
    {
      InputTypeOfTRPD(key);
    }
    TRPDKeys(c1, c2, c3, c4, c5, c6, c7);
    TRPDFieldsFit(c1, c2, c3, c4, c5, c6, c7);
  }

  /** The nodes the fields of `new TRPD()` hold are the ones it builds for them. */
  lemma TRPDChildren(c1: Node, c2: Node, c3: Node, c4: Node, c5: Node, c6: Node, c7: Node)
    ensures forall x :: x in ChildNodes(TRPDFields(c1, c2, c3, c4, c5, c6, c7)) ==>
      x == c1 || x == c2 || x == c3 || x == c4 || x == c5 || x == c6 || x == c7
  {
  }

  /** The field of `new TRPD()` that holds each node it builds. */
  function TRPDOwner(c1: Node, c2: Node, c3: Node, c4: Node, c5: Node, c6: Node,
      c7: Node): map<Node, string>
  {
    map[c1 := "x1", c2 := "y1", c3 := "x2", c4 := "y2", c5 := "z", c6 := "box_size",
      c7 := "box_pos"]
  }

  /** The fields `x1`, `y1`, `x2` of `new TRPD()` hold only nodes it gives to them. */
  lemma TRPDOwned1(c1: Node, c2: Node, c3: Node, c4: Node, c5: Node, c6: Node, c7: Node)
    requires c1.cls == Value && c2.cls == Value && c3.cls == Value && c4.cls == Value &&
      c5.cls == Value && c6.cls == Vec3 && c7.cls == Vec3 && c1 != c2 && c1 != c3 && c1 != c4 &&
      c1 != c5 && c2 != c3 && c2 != c4 && c2 != c5 && c3 != c4 && c3 != c5 && c4 != c5 && c6 != c7
    ensures var f := TRPDFields(c1, c2, c3, c4, c5, c6, c7);
      forall key :: key in f && key in ["x1", "y1", "x2"] ==>
        OwnedBy(f[key], key, TRPDOwner(c1, c2, c3, c4, c5, c6, c7))
  {
  }

  /** The fields `y2`, `z`, `box_size`, `box_pos` of `new TRPD()` hold only nodes it gives to them.
      */
  lemma TRPDOwned2(c1: Node, c2: Node, c3: Node, c4: Node, c5: Node, c6: Node, c7: Node)
    requires c1.cls == Value && c2.cls == Value && c3.cls == Value && c4.cls == Value &&
      c5.cls == Value && c6.cls == Vec3 && c7.cls == Vec3 && c1 != c2 && c1 != c3 && c1 != c4 &&
      c1 != c5 && c2 != c3 && c2 != c4 && c2 != c5 && c3 != c4 && c3 != c5 && c4 != c5 && c6 != c7
    ensures var f := TRPDFields(c1, c2, c3, c4, c5, c6, c7);
      forall key :: key in f && key in ["y2", "z", "box_size", "box_pos"] ==>
        OwnedBy(f[key], key, TRPDOwner(c1, c2, c3, c4, c5, c6, c7))
  {
  }

  /** Each node the fields of `new TRPD()` hold is held at one place only. */
  lemma TRPDUnshared(c1: Node, c2: Node, c3: Node, c4: Node, c5: Node, c6: Node, c7: Node)
    requires c1.cls == Value && c2.cls == Value && c3.cls == Value && c4.cls == Value &&
      c5.cls == Value && c6.cls == Vec3 && c7.cls == Vec3 && c1 != c2 && c1 != c3 && c1 != c4 &&
      c1 != c5 && c2 != c3 && c2 != c4 && c2 != c5 && c3 != c4 && c3 != c5 && c4 != c5 && c6 != c7
    ensures Unshared(TRPDFields(c1, c2, c3, c4, c5, c6, c7))
  {
    TRPDOwned1(c1, c2, c3, c4, c5, c6, c7);
    TRPDOwned2(c1, c2, c3, c4, c5, c6, c7);
    UnsharedByOwner(TRPDFields(c1, c2, c3, c4, c5, c6, c7), TRPDOwner(c1, c2, c3, c4, c5, c6, c7));
  }

  /** A node that holds the fields of `new TRPD()`, and whose child nodes
      are built for it and are not the node itself, is what `new TRPD()` builds. */
  lemma TRPDDefault(n: Node, c1: Node, c2: Node, c3: Node, c4: Node, c5: Node, c6: Node, c7: Node)
    requires n.cls == TRPD && n.fields == TRPDFields(c1, c2, c3, c4, c5, c6, c7)
    requires BuiltChild(n, c1) && BuiltChild(n, c2) && BuiltChild(n, c3) && BuiltChild(n, c4) &&
      BuiltChild(n, c5) && BuiltChild(n, c6) && BuiltChild(n, c7) && c1.cls == Value &&
      c2.cls == Value && c3.cls == Value && c4.cls == Value && c5.cls == Value && c6.cls == Vec3 &&
      c7.cls == Vec3 && c1 != c2 && c1 != c3 && c1 != c4 && c1 != c5 && c2 != c3 && c2 != c4 &&
      c2 != c5 && c3 != c4 && c3 != c5 && c4 != c5 && c6 != c7
    ensures DefaultNode(n, TRPD)
    ensures forall x :: x in ChildNodes(n.fields) ==>
      x == c1 || x == c2 || x == c3 || x == c4 || x == c5 || x == c6 || x == c7
  {
    TRPDConforms(c1, c2, c3, c4, c5, c6, c7);
    TRPDChildren(c1, c2, c3, c4, c5, c6, c7);
    TRPDUnshared(c1, c2, c3, c4, c5, c6, c7);
  }

  /** `new TRPD()` allocates the node it returns and every node its fields hold. */
  twostate lemma TRPDFresh(new n: Node, new c1: Node, new c2: Node, new c3: Node, new c4: Node,
      new c5: Node, new c6: Node, new c7: Node)
    requires fresh(n) && fresh(c1) && fresh(c2) && fresh(c3) && fresh(c4) && fresh(c5) &&
      fresh(c6) && fresh(c7)
    requires n.fields == TRPDFields(c1, c2, c3, c4, c5, c6, c7)
    ensures fresh(NodeAndChildren(n))
  {
    TRPDChildren(c1, c2, c3, c4, c5, c6, c7);
  }

  /** `new TRPD()`. */
  method NewTRPD() returns (n: Node)
    ensures fresh(NodeAndChildren(n)) && DefaultNode(n, TRPD)
    ensures
      exists c1: Node, c2: Node, c3: Node, c4: Node, c5: Node, c6: Node, c7: Node ::
        n.fields == TRPDFields(c1, c2, c3, c4, c5, c6, c7)
  {
    var c1 := NewValue();
    var c2 := NewValue();
    var c3 := NewValue();
    var c4 := NewValue();
    var c5 := NewValue();
    var c6 := NewVec3();
    var c7 := NewVec3();
    n := new Node(TRPD, TRPDFields(c1, c2, c3, c4, c5, c6, c7));
    TRPDFresh(n, c1, c2, c3, c4, c5, c6, c7);
    TRPDDefault(n, c1, c2, c3, c4, c5, c6, c7);
  }

  /** The fields `new Hexagone()` stores, given the nodes it builds for them. */
  function HexagoneFields(c1: Node, c2: Node): map<string, JsValue>
  {
    map[
      "radius" := Ref(c1),
      "height" := Ref(c2)]
  }

  /** The fields `new Hexagone()` stores conform to `Hexagone.input_type`. */
  lemma HexagoneConforms(c1: Node, c2: Node)
    requires c1.cls == Value && c2.cls == Value
    ensures Conforms(Hexagone, HexagoneFields(c1, c2), true)
  {
  }

  /** The nodes the fields of `new Hexagone()` hold are the ones it builds for them. */
  lemma HexagoneChildren(c1: Node, c2: Node)
    ensures forall x :: x in ChildNodes(HexagoneFields(c1, c2)) ==>
      x == c1 || x == c2
  {
  }

  /** The field of `new Hexagone()` that holds each node it builds. */
  function HexagoneOwner(c1: Node, c2: Node): map<Node, string>
  {
    map[c1 := "radius", c2 := "height"]
  }

  /** Each node the fields of `new Hexagone()` hold is held at one place only. */
  lemma HexagoneUnshared(c1: Node, c2: Node)
    requires c1.cls == Value && c2.cls == Value && c1 != c2
    ensures Unshared(HexagoneFields(c1, c2))
  {
    UnsharedByOwner(HexagoneFields(c1, c2), HexagoneOwner(c1, c2));
  }

  /** A node that holds the fields of `new Hexagone()`, and whose child nodes
      are built for it and are not the node itself, is what `new Hexagone()` builds. */
  lemma HexagoneDefault(n: Node, c1: Node, c2: Node)
    requires n.cls == Hexagone && n.fields == HexagoneFields(c1, c2)
    requires BuiltChild(n, c1) && BuiltChild(n, c2) && c1.cls == Value && c2.cls == Value &&
      c1 != c2
    ensures DefaultNode(n, Hexagone)
    ensures forall x :: x in ChildNodes(n.fields) ==> x == c1 || x == c2
  {
    HexagoneConforms(c1, c2);
    HexagoneChildren(c1, c2);
    HexagoneUnshared(c1, c2);
  }

  /** `new Hexagone()` allocates the node it returns and every node its fields hold. */
  twostate lemma HexagoneFresh(new n: Node, new c1: Node, new c2: Node)
    requires fresh(n) && fresh(c1) && fresh(c2)
    requires n.fields == HexagoneFields(c1, c2)
    ensures fresh(NodeAndChildren(n))
  {
    HexagoneChildren(c1, c2);
  }

  /** `new Hexagone()`. */
  method NewHexagone() returns (n: Node)
    ensures fresh(NodeAndChildren(n)) && DefaultNode(n, Hexagone)
    ensures exists c1: Node, c2: Node :: n.fields == HexagoneFields(c1, c2)
  {
    var c1 := NewValue();
    var c2 := NewValue();
    n := new Node(Hexagone, HexagoneFields(c1, c2));
    HexagoneFresh(n, c1, c2);
    HexagoneDefault(n, c1, c2);
  }

  /** The fields `new Wedge()` stores, given the nodes it builds for them. */
  function WedgeFields(c1: Node, c2: Node): map<string, JsValue>
  {
    map[
      "narrower_xlength" := Ref(c1),
      "size" := Ref(c2)]
  }

  /** The fields `new Wedge()` stores conform to `Wedge.input_type`. */
  lemma WedgeConforms(c1: Node, c2: Node)
    requires c1.cls == Value && c2.cls == Vec3
    ensures Conforms(Wedge, WedgeFields(c1, c2), true)
  {
  }

  /** The nodes the fields of `new Wedge()` hold are the ones it builds for them. */
  lemma WedgeChildren(c1: Node, c2: Node)
    ensures forall x :: x in ChildNodes(WedgeFields(c1, c2)) ==>
      x == c1 || x == c2
  {
  }

  /** The field of `new Wedge()` that holds each node it builds. */
  function WedgeOwner(c1: Node, c2: Node): map<Node, string>
  {
    map[c1 := "narrower_xlength", c2 := "size"]
  }

  /** Each node the fields of `new Wedge()` hold is held at one place only. */
  lemma WedgeUnshared(c1: Node, c2: Node)
    requires c1.cls == Value && c2.cls == Vec3
    ensures Unshared(WedgeFields(c1, c2))
  {
    UnsharedByOwner(WedgeFields(c1, c2), WedgeOwner(c1, c2));
  }

  /** A node that holds the fields of `new Wedge()`, and whose child nodes
      are built for it and are not the node itself, is what `new Wedge()` builds. */
  lemma WedgeDefault(n: Node, c1: Node, c2: Node)
    requires n.cls == Wedge && n.fields == WedgeFields(c1, c2)
    requires BuiltChild(n, c1) && BuiltChild(n, c2) && c1.cls == Value && c2.cls == Vec3
    ensures DefaultNode(n, Wedge)
    ensures forall x :: x in ChildNodes(n.fields) ==> x == c1 || x == c2
  {
    WedgeConforms(c1, c2);
    WedgeChildren(c1, c2);
    WedgeUnshared(c1, c2);
  }

  /** `new Wedge()` allocates the node it returns and every node its fields hold. */
  twostate lemma WedgeFresh(new n: Node, new c1: Node, new c2: Node)
    requires fresh(n) && fresh(c1) && fresh(c2)
    requires n.fields == WedgeFields(c1, c2)
    ensures fresh(NodeAndChildren(n))
  {
    WedgeChildren(c1, c2);
  }

  /** `new Wedge()`. */
  method NewWedge() returns (n: Node)
    ensures fresh(NodeAndChildren(n)) && DefaultNode(n, Wedge)
    ensures exists c1: Node, c2: Node :: n.fields == WedgeFields(c1, c2)
  {
    var c1 := NewValue();
    var c2 := NewVec3();
    n := new Node(Wedge, WedgeFields(c1, c2));
    WedgeFresh(n, c1, c2);
    WedgeDefault(n, c1, c2);
  }

  /** The fields `new Appearance()` stores. */
  function AppearanceFields(): map<string, JsValue>
  {
    map[
      "color" := Str(""),
      "visible" := Bool(false),
      "daughters_invisible" := Bool(false),
      "line_style" := Str(""),
      "line_width" := Null,
      "force_solid" := Bool(false),
      "force_wireframe" := Bool(false)]
  }

  /** The keys `new Appearance()` stores are the keys `Appearance.input_type` describes. */
  lemma AppearanceKeys()
    ensures var f := AppearanceFields();
      forall key :: key in f <==> Corrected(Appearance, key, AppearanceInputType(key)).Some?
  {
  }

  /** Each field `new Appearance()` stores holds the initial value of its descriptor. */
  lemma AppearanceFieldsFit()
    ensures var f := AppearanceFields();
      forall key :: key in f ==>
        var d := Corrected(Appearance, key, AppearanceInputType(key));
        d.Some? && FieldFits(Appearance, key, f[key], d.value, true)
  {
  }

  /** The fields `new Appearance()` stores conform to `Appearance.input_type`. */
  lemma AppearanceConforms()
    ensures Conforms(Appearance, AppearanceFields(), true)
  {
    forall key
      ensures InputType(Appearance, key) == Corrected(Appearance, key, AppearanceInputType(key))
    {
      InputTypeOfAppearance(key);
    }
    AppearanceKeys();
    AppearanceFieldsFit();
  }

  /** The fields of `new Appearance()` hold no node, and so share none. */
  lemma AppearanceChildren()
    ensures ChildNodes(AppearanceFields()) == {}
    ensures Unshared(AppearanceFields())
  {
  }

  /** A node that holds the fields of `new Appearance()`, and whose child nodes
      are built for it and are not the node itself, is what `new Appearance()` builds. */
  lemma AppearanceDefault(n: Node)
    requires n.cls == Appearance && n.fields == AppearanceFields()
    ensures DefaultNode(n, Appearance)
    ensures ChildNodes(n.fields) == {}
  {
    AppearanceConforms();
    AppearanceChildren();
  }

  /** `new Appearance()`. */
  method NewAppearance() returns (n: Node)
    ensures fresh(NodeAndChildren(n)) && DefaultNode(n, Appearance)
    ensures n.fields == AppearanceFields()
  {
    n := new Node(Appearance, AppearanceFields());
    AppearanceDefault(n);
  }

  /** The fields `new VoxelizedPhantom()` stores, given the nodes it builds for them. */
  function VoxelizedPhantomFields(c1: Node, c2: Node, c3: Node): map<string, JsValue>
  {
    map[
      "name" := Str(""),
      "insert" := Str(""),
      "image" := Str(""),
      "material_database" := Str(""),
      "range_to_material_file" := Str(""),
      "hu_to_material_file" := Str(""),
      "attach" := Str(""),
      "skip_equal_materials" := Bool(false),
      "material_table" := Str(""),
      "density_table" := Str(""),
      "density_tolerance" := Ref(c1),
      "output_material_database_filename" := Str(""),
      "output_hu_material_filename" := Str(""),
      "fictitious_energy" := Ref(c2),
      "gamma_discard_energy" := Ref(c3)]
  }

  /** The keys `new VoxelizedPhantom()` stores are the keys `VoxelizedPhantom.input_type`
      describes. */
  lemma VoxelizedPhantomKeys(c1: Node, c2: Node, c3: Node)
    ensures var f := VoxelizedPhantomFields(c1, c2, c3);
      forall key :: key in f <==> Corrected(VoxelizedPhantom, key,
          VoxelizedPhantomInputType(key)).Some?
  {
  }

  /** The fields `name`, `insert`, `image`, `material_database`, `range_to_material_file` that `new
      VoxelizedPhantom()` stores hold the initial values of their descriptors. */
  lemma VoxelizedPhantomFieldsFit1(c1: Node, c2: Node, c3: Node)
    requires c1.cls == Value && c2.cls == Value && c3.cls == Value
    ensures var f := VoxelizedPhantomFields(c1, c2, c3);
      forall key :: (key in f && key in ["name", "insert", "image", "material_database",
        "range_to_material_file"]) ==>
        var d := Corrected(VoxelizedPhantom, key, VoxelizedPhantomInputType(key));
        d.Some? && FieldFits(VoxelizedPhantom, key, f[key], d.value, true)
  {
  }

  /** The fields `hu_to_material_file`, `attach`, `skip_equal_materials`, `material_table`,
      `density_table` that `new VoxelizedPhantom()` stores hold the initial values of their
      descriptors. */
  lemma VoxelizedPhantomFieldsFit2(c1: Node, c2: Node, c3: Node)
    requires c1.cls == Value && c2.cls == Value && c3.cls == Value
    ensures var f := VoxelizedPhantomFields(c1, c2, c3);
      forall key :: (key in f && key in ["hu_to_material_file", "attach", "skip_equal_materials",
        "material_table", "density_table"]) ==>
        var d := Corrected(VoxelizedPhantom, key, VoxelizedPhantomInputType(key));
        d.Some? && FieldFits(VoxelizedPhantom, key, f[key], d.value, true)
  {
  }

  /** The fields `density_tolerance`, `output_material_database_filename`,
      `output_hu_material_filename`, `fictitious_energy`, `gamma_discard_energy` that `new
      VoxelizedPhantom()` stores hold the initial values of their descriptors. */
  lemma VoxelizedPhantomFieldsFit3(c1: Node, c2: Node, c3: Node)
    requires c1.cls == Value && c2.cls == Value && c3.cls == Value
    ensures var f := VoxelizedPhantomFields(c1, c2, c3);
      forall key :: (key in f && key in ["density_tolerance", "output_material_database_filename",
        "output_hu_material_filename", "fictitious_energy", "gamma_discard_energy"]) ==>
        var d := Corrected(VoxelizedPhantom, key, VoxelizedPhantomInputType(key));
        d.Some? && FieldFits(VoxelizedPhantom, key, f[key], d.value, true)
  {
  }

  /** Each field `new VoxelizedPhantom()` stores holds the initial value of its descriptor. */
  lemma VoxelizedPhantomFieldsFit(c1: Node, c2: Node, c3: Node)
    requires c1.cls == Value && c2.cls == Value && c3.cls == Value
    ensures var f := VoxelizedPhantomFields(c1, c2, c3);
      forall key :: key in f ==>
        var d := Corrected(VoxelizedPhantom, key, VoxelizedPhantomInputType(key));
        d.Some? && FieldFits(VoxelizedPhantom, key, f[key], d.value, true)
  {
    VoxelizedPhantomFieldsFit1(c1, c2, c3);
    VoxelizedPhantomFieldsFit2(c1, c2, c3);
    VoxelizedPhantomFieldsFit3(c1, c2, c3);
  }

  /** The fields `new VoxelizedPhantom()` stores conform to `VoxelizedPhantom.input_type`. */
  lemma VoxelizedPhantomConforms(c1: Node, c2: Node, c3: Node)
    requires c1.cls == Value && c2.cls == Value && c3.cls == Value
    ensures Conforms(VoxelizedPhantom, VoxelizedPhantomFields(c1, c2, c3), true)
  {
    forall key
      ensures InputType(VoxelizedPhantom, key) ==
        Corrected(VoxelizedPhantom, key, VoxelizedPhantomInputType(key))
    {
      InputTypeOfVoxelizedPhantom(key);
    }
    VoxelizedPhantomKeys(c1, c2, c3);
    VoxelizedPhantomFieldsFit(c1, c2, c3);
  }

  /** The nodes the fields of `new VoxelizedPhantom()` hold are the ones it builds for them. */
  lemma VoxelizedPhantomChildren(c1: Node, c2: Node, c3: Node)
    ensures forall x :: x in ChildNodes(VoxelizedPhantomFields(c1, c2, c3)) ==>
      x == c1 || x == c2 || x == c3
  {
  }

  /** The field of `new VoxelizedPhantom()` that holds each node it builds. */
  function VoxelizedPhantomOwner(c1: Node, c2: Node, c3: Node): map<Node, string>
  {
    map[c1 := "density_tolerance", c2 := "fictitious_energy", c3 := "gamma_discard_energy"]
  }

  /** The fields `name`, `insert`, `image` of `new VoxelizedPhantom()` hold only nodes it gives to
      them. */
  lemma VoxelizedPhantomOwned1(c1: Node, c2: Node, c3: Node)
    requires c1.cls == Value && c2.cls == Value && c3.cls == Value && c1 != c2 && c1 != c3 &&
      c2 != c3
    ensures var f := VoxelizedPhantomFields(c1, c2, c3);
      forall key :: key in f && key in ["name", "insert", "image"] ==>
        OwnedBy(f[key], key, VoxelizedPhantomOwner(c1, c2, c3))
  {
  }

  /** The fields `material_database`, `range_to_material_file`, `hu_to_material_file` of `new
      VoxelizedPhantom()` hold only nodes it gives to them. */
  lemma VoxelizedPhantomOwned2(c1: Node, c2: Node, c3: Node)
    requires c1.cls == Value && c2.cls == Value && c3.cls == Value && c1 != c2 && c1 != c3 &&
      c2 != c3
    ensures var f := VoxelizedPhantomFields(c1, c2, c3);
      forall key :: key in f && key in ["material_database", "range_to_material_file",
        "hu_to_material_file"] ==>
        OwnedBy(f[key], key, VoxelizedPhantomOwner(c1, c2, c3))
  {
  }

  /** The fields `attach`, `skip_equal_materials`, `material_table` of `new VoxelizedPhantom()`
      hold only nodes it gives to them. */
  lemma VoxelizedPhantomOwned3(c1: Node, c2: Node, c3: Node)
    requires c1.cls == Value && c2.cls == Value && c3.cls == Value && c1 != c2 && c1 != c3 &&
      c2 != c3
    ensures var f := VoxelizedPhantomFields(c1, c2, c3);
      forall key :: key in f && key in ["attach", "skip_equal_materials", "material_table"] ==>
        OwnedBy(f[key], key, VoxelizedPhantomOwner(c1, c2, c3))
  {
  }

  /** The fields `density_table`, `density_tolerance`, `output_material_database_filename` of `new
      VoxelizedPhantom()` hold only nodes it gives to them. */
  lemma VoxelizedPhantomOwned4(c1: Node, c2: Node, c3: Node)
    requires c1.cls == Value && c2.cls == Value && c3.cls == Value && c1 != c2 && c1 != c3 &&
      c2 != c3
    ensures var f := VoxelizedPhantomFields(c1, c2, c3);
      forall key :: key in f && key in ["density_table", "density_tolerance",
        "output_material_database_filename"] ==>
        OwnedBy(f[key], key, VoxelizedPhantomOwner(c1, c2, c3))
  {
  }

  /** The fields `output_hu_material_filename`, `fictitious_energy`, `gamma_discard_energy` of `new
      VoxelizedPhantom()` hold only nodes it gives to them. */
  lemma VoxelizedPhantomOwned5(c1: Node, c2: Node, c3: Node)
    requires c1.cls == Value && c2.cls == Value && c3.cls == Value && c1 != c2 && c1 != c3 &&
      c2 != c3
    ensures var f := VoxelizedPhantomFields(c1, c2, c3);
      forall key :: key in f && key in ["output_hu_material_filename", "fictitious_energy",
        "gamma_discard_energy"] ==>
        OwnedBy(f[key], key, VoxelizedPhantomOwner(c1, c2, c3))
  {
  }

  /** Each node the fields of `new VoxelizedPhantom()` hold is held at one place only. */
  lemma VoxelizedPhantomUnshared(c1: Node, c2: Node, c3: Node)
    requires c1.cls == Value && c2.cls == Value && c3.cls == Value && c1 != c2 && c1 != c3 &&
      c2 != c3
    ensures Unshared(VoxelizedPhantomFields(c1, c2, c3))
  {
    VoxelizedPhantomOwned1(c1, c2, c3);
    VoxelizedPhantomOwned2(c1, c2, c3);
    VoxelizedPhantomOwned3(c1, c2, c3);
    VoxelizedPhantomOwned4(c1, c2, c3);
    VoxelizedPhantomOwned5(c1, c2, c3);
    UnsharedByOwner(VoxelizedPhantomFields(c1, c2, c3), VoxelizedPhantomOwner(c1, c2, c3));
  }

  /** A node that holds the fields of `new VoxelizedPhantom()`, and whose child nodes
      are built for it and are not the node itself, is what `new VoxelizedPhantom()` builds. */
  lemma VoxelizedPhantomDefault(n: Node, c1: Node, c2: Node, c3: Node)
    requires n.cls == VoxelizedPhantom && n.fields == VoxelizedPhantomFields(c1, c2, c3)
    requires BuiltChild(n, c1) && BuiltChild(n, c2) && BuiltChild(n, c3) && c1.cls == Value &&
      c2.cls == Value && c3.cls == Value && c1 != c2 && c1 != c3 && c2 != c3
    ensures DefaultNode(n, VoxelizedPhantom)
    ensures forall x :: x in ChildNodes(n.fields) ==> x == c1 || x == c2 || x == c3
  {
    VoxelizedPhantomConforms(c1, c2, c3);
    VoxelizedPhantomChildren(c1, c2, c3);
    VoxelizedPhantomUnshared(c1, c2, c3);
  }

  /** `new VoxelizedPhantom()` allocates the node it returns and every node its fields hold. */
  twostate lemma VoxelizedPhantomFresh(new n: Node, new c1: Node, new c2: Node, new c3: Node)
    requires fresh(n) && fresh(c1) && fresh(c2) && fresh(c3)
    requires n.fields == VoxelizedPhantomFields(c1, c2, c3)
    ensures fresh(NodeAndChildren(n))
  {
    VoxelizedPhantomChildren(c1, c2, c3);
  }

  /** `new VoxelizedPhantom()`. */
  method NewVoxelizedPhantom() returns (n: Node)
    ensures fresh(NodeAndChildren(n)) && DefaultNode(n, VoxelizedPhantom)
    ensures exists c1: Node, c2: Node, c3: Node :: n.fields == VoxelizedPhantomFields(c1, c2, c3)
  {
    var c1 := NewValue();
    var c2 := NewValue();
    var c3 := NewValue();
    n := new Node(VoxelizedPhantom, VoxelizedPhantomFields(c1, c2, c3));
    VoxelizedPhantomFresh(n, c1, c2, c3);
    VoxelizedPhantomDefault(n, c1, c2, c3);
  }

  /** The fields `new Vec3()` stores. */
  function Vec3Fields(): map<string, JsValue>
  {
    map[
      "value" := Arr([Null, Null, Null]),
      "unit" := Str("")]
  }

  /** The fields `new Vec3()` stores conform to `Vec3.input_type`. */
  lemma Vec3Conforms()
    ensures Conforms(Vec3, Vec3Fields(), true)
  {
  }

  /** The fields of `new Vec3()` hold no node, and so share none. */
  lemma Vec3Children()
    ensures ChildNodes(Vec3Fields()) == {}
    ensures Unshared(Vec3Fields())
  {
  }

  /** A node that holds the fields of `new Vec3()`, and whose child nodes
      are built for it and are not the node itself, is what `new Vec3()` builds. */
  lemma Vec3Default(n: Node)
    requires n.cls == Vec3 && n.fields == Vec3Fields()
    ensures DefaultNode(n, Vec3)
    ensures ChildNodes(n.fields) == {}
  {
    Vec3Conforms();
    Vec3Children();
  }

  /** `new Vec3()`. */
  method NewVec3() returns (n: Node)
    ensures fresh(NodeAndChildren(n)) && DefaultNode(n, Vec3)
    ensures n.fields == Vec3Fields()
  {
    n := new Node(Vec3, Vec3Fields());
    Vec3Default(n);
  }

  /** The fields `new Value()` stores. */
  function ValueFields(): map<string, JsValue>
  {
    map[
      "num" := Null,
      "unit" := Str("")]
  }

  /** The fields `new Value()` stores conform to `Value.input_type`. */
  lemma ValueConforms()
    ensures Conforms(Value, ValueFields(), true)
  {
  }

  /** The fields of `new Value()` hold no node, and so share none. */
  lemma ValueChildren()
    ensures ChildNodes(ValueFields()) == {}
    ensures Unshared(ValueFields())
  {
  }

  /** A node that holds the fields of `new Value()`, and whose child nodes
      are built for it and are not the node itself, is what `new Value()` builds. */
  lemma ValueDefault(n: Node)
    requires n.cls == Value && n.fields == ValueFields()
    ensures DefaultNode(n, Value)
    ensures ChildNodes(n.fields) == {}
  {
    ValueConforms();
    ValueChildren();
  }

  /** `new Value()`. */
  method NewValue() returns (n: Node)
    ensures fresh(NodeAndChildren(n)) && DefaultNode(n, Value)
    ensures n.fields == ValueFields()
  {
    n := new Node(Value, ValueFields());
    ValueDefault(n);
  }

  /** The fields `new Physics()` stores, given the nodes it builds for them. */
  function PhysicsFields(c1: Node, c2: Node, c3: Node, c4: Node): map<string, JsValue>
  {
    map[
      "physics_list" := Str(""),
      "cut_in_world" := Ref(c1),
      "cut_in_patient" := Ref(c2),
      "activate_step_limiter" := Str(""),
      "process" := Arr([Ref(c3)]),
      "mag_field" := Ref(c4)]
  }

  /** The keys `new Physics()` stores are the keys `Physics.input_type` describes. */
  lemma PhysicsKeys(c1: Node, c2: Node, c3: Node, c4: Node)
    ensures var f := PhysicsFields(c1, c2, c3, c4);
      forall key :: key in f <==> Corrected(Physics, key, PhysicsInputType(key)).Some?
  {
  }

  /** Each field `new Physics()` stores holds the initial value of its descriptor. */
  lemma PhysicsFieldsFit(c1: Node, c2: Node, c3: Node, c4: Node)
    requires c1.cls == CutInRegion && c2.cls == CutInRegion && c3.cls == Process && c4.cls == Vec3
    ensures var f := PhysicsFields(c1, c2, c3, c4);
      forall key :: key in f ==>
        var d := Corrected(Physics, key, PhysicsInputType(key));
        d.Some? && FieldFits(Physics, key, f[key], d.value, true)
  {
  }

  /** The fields `new Physics()` stores conform to `Physics.input_type`. */
  lemma PhysicsConforms(c1: Node, c2: Node, c3: Node, c4: Node)
    requires c1.cls == CutInRegion && c2.cls == CutInRegion && c3.cls == Process && c4.cls == Vec3
    ensures Conforms(Physics, PhysicsFields(c1, c2, c3, c4), true)
  {
    forall key
      ensures InputType(Physics, key) == Corrected(Physics, key, PhysicsInputType(key))
    {
      InputTypeOfPhysics(key);
    }
    PhysicsKeys(c1, c2, c3, c4);
    PhysicsFieldsFit(c1, c2, c3, c4);
  }

  /** The nodes the fields of `new Physics()` hold are the ones it builds for them. */
  lemma PhysicsChildren(c1: Node, c2: Node, c3: Node, c4: Node)
    ensures forall x :: x in ChildNodes(PhysicsFields(c1, c2, c3, c4)) ==>
      x == c1 || x == c2 || x == c3 || x == c4
  {
  }

  /** The field of `new Physics()` that holds each node it builds. */
  function PhysicsOwner(c1: Node, c2: Node, c3: Node, c4: Node): map<Node, string>
  {
    map[c1 := "cut_in_world", c2 := "cut_in_patient", c3 := "process", c4 := "mag_field"]
  }

  /** The fields `physics_list`, `cut_in_world`, `cut_in_patient` of `new Physics()` hold only
      nodes it gives to them. */
  lemma PhysicsOwned1(c1: Node, c2: Node, c3: Node, c4: Node)
    requires c1.cls == CutInRegion && c2.cls == CutInRegion && c3.cls == Process &&
      c4.cls == Vec3 && c1 != c2
    ensures var f := PhysicsFields(c1, c2, c3, c4);
      forall key :: key in f && key in ["physics_list", "cut_in_world", "cut_in_patient"] ==>
        OwnedBy(f[key], key, PhysicsOwner(c1, c2, c3, c4))
  {
  }

  /** The fields `activate_step_limiter`, `process`, `mag_field` of `new Physics()` hold only nodes
      it gives to them. */
  lemma PhysicsOwned2(c1: Node, c2: Node, c3: Node, c4: Node)
    requires c1.cls == CutInRegion && c2.cls == CutInRegion && c3.cls == Process &&
      c4.cls == Vec3 && c1 != c2
    ensures var f := PhysicsFields(c1, c2, c3, c4);
      forall key :: key in f && key in ["activate_step_limiter", "process", "mag_field"] ==>
        OwnedBy(f[key], key, PhysicsOwner(c1, c2, c3, c4))
  {
  }

  /** Each node the fields of `new Physics()` hold is held at one place only. */
  lemma PhysicsUnshared(c1: Node, c2: Node, c3: Node, c4: Node)
    requires c1.cls == CutInRegion && c2.cls == CutInRegion && c3.cls == Process &&
      c4.cls == Vec3 && c1 != c2
    ensures Unshared(PhysicsFields(c1, c2, c3, c4))
  {
    PhysicsOwned1(c1, c2, c3, c4);
    PhysicsOwned2(c1, c2, c3, c4);
    UnsharedByOwner(PhysicsFields(c1, c2, c3, c4), PhysicsOwner(c1, c2, c3, c4));
  }

  /** A node that holds the fields of `new Physics()`, and whose child nodes
      are built for it and are not the node itself, is what `new Physics()` builds. */
  lemma PhysicsDefault(n: Node, c1: Node, c2: Node, c3: Node, c4: Node)
    requires n.cls == Physics && n.fields == PhysicsFields(c1, c2, c3, c4)
    requires BuiltChild(n, c1) && BuiltChild(n, c2) && BuiltChild(n, c3) && BuiltChild(n, c4) &&
      c1.cls == CutInRegion && c2.cls == CutInRegion && c3.cls == Process && c4.cls == Vec3 &&
      c1 != c2
    ensures DefaultNode(n, Physics)
    ensures forall x :: x in ChildNodes(n.fields) ==> x == c1 || x == c2 || x == c3 || x == c4
  {
    PhysicsConforms(c1, c2, c3, c4);
    PhysicsChildren(c1, c2, c3, c4);
    PhysicsUnshared(c1, c2, c3, c4);
  }

  /** `new Physics()` allocates the node it returns and every node its fields hold. */
  twostate lemma PhysicsFresh(new n: Node, new c1: Node, new c2: Node, new c3: Node, new c4: Node)
    requires fresh(n) && fresh(c1) && fresh(c2) && fresh(c3) && fresh(c4)
    requires n.fields == PhysicsFields(c1, c2, c3, c4)
    ensures fresh(NodeAndChildren(n))
  {
    PhysicsChildren(c1, c2, c3, c4);
  }

  /** `new Physics()`. */
  method NewPhysics() returns (n: Node)
    ensures fresh(NodeAndChildren(n)) && DefaultNode(n, Physics)
    ensures
      exists c1: Node, c2: Node, c3: Node, c4: Node ::
        n.fields == PhysicsFields(c1, c2, c3, c4)
  {
    var c1 := NewCutInRegion();
    var c2 := NewCutInRegion();
    var c3 := NewProcess();
    var c4 := NewVec3();
    n := new Node(Physics, PhysicsFields(c1, c2, c3, c4));
    PhysicsFresh(n, c1, c2, c3, c4);
    PhysicsDefault(n, c1, c2, c3, c4);
  }

  /** The fields `new CutInRegion()` stores, given the nodes it builds for them. */
  function CutInRegionFields(c1: Node, c2: Node, c3: Node, c4: Node, c5: Node): map<string, JsValue>
  {
    map[
      "gamma" := Ref(c1),
      "electron" := Ref(c2),
      "positron" := Ref(c3),
      "proton" := Ref(c4),
      "max_step" := Ref(c5)]
  }

  /** The keys `new CutInRegion()` stores are the keys `CutInRegion.input_type` describes. */
  lemma CutInRegionKeys(c1: Node, c2: Node, c3: Node, c4: Node, c5: Node)
    ensures var f := CutInRegionFields(c1, c2, c3, c4, c5);
      forall key :: key in f <==> Corrected(CutInRegion, key, CutInRegionInputType(key)).Some?
  {
  }

  /** Each field `new CutInRegion()` stores holds the initial value of its descriptor. */
  lemma CutInRegionFieldsFit(c1: Node, c2: Node, c3: Node, c4: Node, c5: Node)
    requires c1.cls == Value && c2.cls == Value && c3.cls == Value && c4.cls == Value &&
      c5.cls == Value
    ensures var f := CutInRegionFields(c1, c2, c3, c4, c5);
      forall key :: key in f ==>
        var d := Corrected(CutInRegion, key, CutInRegionInputType(key));
        d.Some? && FieldFits(CutInRegion, key, f[key], d.value, true)
  {
  }

  /** The fields `new CutInRegion()` stores conform to `CutInRegion.input_type`. */
  lemma CutInRegionConforms(c1: Node, c2: Node, c3: Node, c4: Node, c5: Node)
    requires c1.cls == Value && c2.cls == Value && c3.cls == Value && c4.cls == Value &&
      c5.cls == Value
    ensures Conforms(CutInRegion, CutInRegionFields(c1, c2, c3, c4, c5), true)
  {
    forall key
      ensures InputType(CutInRegion, key) == Corrected(CutInRegion, key, CutInRegionInputType(key))
    {
      InputTypeOfCutInRegion(key);
    }
    CutInRegionKeys(c1, c2, c3, c4, c5);
    CutInRegionFieldsFit(c1, c2, c3, c4, c5);
  }

  /** The nodes the fields of `new CutInRegion()` hold are the ones it builds for them. */
  lemma CutInRegionChildren(c1: Node, c2: Node, c3: Node, c4: Node, c5: Node)
    ensures forall x :: x in ChildNodes(CutInRegionFields(c1, c2, c3, c4, c5)) ==>
      x == c1 || x == c2 || x == c3 || x == c4 || x == c5
  {
  }

  /** The field of `new CutInRegion()` that holds each node it builds. */
  function CutInRegionOwner(c1: Node, c2: Node, c3: Node, c4: Node, c5: Node): map<Node, string>
  {
    map[c1 := "gamma", c2 := "electron", c3 := "positron", c4 := "proton", c5 := "max_step"]
  }

  /** The fields `gamma`, `electron`, `positron` of `new CutInRegion()` hold only nodes it gives to
      them. */
  lemma CutInRegionOwned1(c1: Node, c2: Node, c3: Node, c4: Node, c5: Node)
    requires c1.cls == Value && c2.cls == Value && c3.cls == Value && c4.cls == Value &&
      c5.cls == Value && c1 != c2 && c1 != c3 && c1 != c4 && c1 != c5 && c2 != c3 && c2 != c4 &&
      c2 != c5 && c3 != c4 && c3 != c5 && c4 != c5
    ensures var f := CutInRegionFields(c1, c2, c3, c4, c5);
      forall key :: key in f && key in ["gamma", "electron", "positron"] ==>
        OwnedBy(f[key], key, CutInRegionOwner(c1, c2, c3, c4, c5))
  {
  }

  /** The fields `proton`, `max_step` of `new CutInRegion()` hold only nodes it gives to them. */
  lemma CutInRegionOwned2(c1: Node, c2: Node, c3: Node, c4: Node, c5: Node)
    requires c1.cls == Value && c2.cls == Value && c3.cls == Value && c4.cls == Value &&
      c5.cls == Value && c1 != c2 && c1 != c3 && c1 != c4 && c1 != c5 && c2 != c3 && c2 != c4 &&
      c2 != c5 && c3 != c4 && c3 != c5 && c4 != c5
    ensures var f := CutInRegionFields(c1, c2, c3, c4, c5);
      forall key :: key in f && key in ["proton", "max_step"] ==>
        OwnedBy(f[key], key, CutInRegionOwner(c1, c2, c3, c4, c5))
  {
  }

  /** Each node the fields of `new CutInRegion()` hold is held at one place only. */
  lemma CutInRegionUnshared(c1: Node, c2: Node, c3: Node, c4: Node, c5: Node)
    requires c1.cls == Value && c2.cls == Value && c3.cls == Value && c4.cls == Value &&
      c5.cls == Value && c1 != c2 && c1 != c3 && c1 != c4 && c1 != c5 && c2 != c3 && c2 != c4 &&
      c2 != c5 && c3 != c4 && c3 != c5 && c4 != c5
    ensures Unshared(CutInRegionFields(c1, c2, c3, c4, c5))
  {
    CutInRegionOwned1(c1, c2, c3, c4, c5);
    CutInRegionOwned2(c1, c2, c3, c4, c5);
    UnsharedByOwner(CutInRegionFields(c1, c2, c3, c4, c5), CutInRegionOwner(c1, c2, c3, c4, c5));
  }

  /** A node that holds the fields of `new CutInRegion()`, and whose child nodes
      are built for it and are not the node itself, is what `new CutInRegion()` builds. */
  lemma CutInRegionDefault(n: Node, c1: Node, c2: Node, c3: Node, c4: Node, c5: Node)
    requires n.cls == CutInRegion && n.fields == CutInRegionFields(c1, c2, c3, c4, c5)
    requires BuiltChild(n, c1) && BuiltChild(n, c2) && BuiltChild(n, c3) && BuiltChild(n, c4) &&
      BuiltChild(n, c5) && c1.cls == Value && c2.cls == Value && c3.cls == Value &&
      c4.cls == Value && c5.cls == Value && c1 != c2 && c1 != c3 && c1 != c4 && c1 != c5 &&
      c2 != c3 && c2 != c4 && c2 != c5 && c3 != c4 && c3 != c5 && c4 != c5
    ensures DefaultNode(n, CutInRegion)
    ensures forall x :: x in ChildNodes(n.fields) ==>
      x == c1 || x == c2 || x == c3 || x == c4 || x == c5
  {
    CutInRegionConforms(c1, c2, c3, c4, c5);
    CutInRegionChildren(c1, c2, c3, c4, c5);
    CutInRegionUnshared(c1, c2, c3, c4, c5);
  }

  /** `new CutInRegion()` allocates the node it returns and every node its fields hold. */
  twostate lemma CutInRegionFresh(new n: Node, new c1: Node, new c2: Node, new c3: Node,
      new c4: Node, new c5: Node)
    requires fresh(n) && fresh(c1) && fresh(c2) && fresh(c3) && fresh(c4) && fresh(c5)
    requires n.fields == CutInRegionFields(c1, c2, c3, c4, c5)
    ensures fresh(NodeAndChildren(n))
  {
    CutInRegionChildren(c1, c2, c3, c4, c5);
  }

  /** `new CutInRegion()`. */
  method NewCutInRegion() returns (n: Node)
    ensures fresh(NodeAndChildren(n)) && DefaultNode(n, CutInRegion)
    ensures
      exists c1: Node, c2: Node, c3: Node, c4: Node, c5: Node ::
        n.fields == CutInRegionFields(c1, c2, c3, c4, c5)
  {
    var c1 := NewValue();
    var c2 := NewValue();
    var c3 := NewValue();
    var c4 := NewValue();
    var c5 := NewValue();
    n := new Node(CutInRegion, CutInRegionFields(c1, c2, c3, c4, c5));
    CutInRegionFresh(n, c1, c2, c3, c4, c5);
    CutInRegionDefault(n, c1, c2, c3, c4, c5);
  }

  /** The fields `new Process()` stores, given the nodes it builds for them. */
  function ProcessFields(c1: Node): map<string, JsValue>
  {
    map[
      "add" := Bool(false),
      "process_name" := Str(""),
      "particle" := Str(""),
      "model" := Ref(c1)]
  }

  /** The keys `new Process()` stores are the keys `Process.input_type` describes. */
  lemma ProcessKeys(c1: Node)
    ensures var f := ProcessFields(c1);
      forall key :: key in f <==> Corrected(Process, key, ProcessInputType(key)).Some?
  {
  }

  /** Each field `new Process()` stores holds the initial value of its descriptor. */
  lemma ProcessFieldsFit(c1: Node)
    requires c1.cls == Model
    ensures var f := ProcessFields(c1);
      forall key :: key in f ==>
        var d := Corrected(Process, key, ProcessInputType(key));
        d.Some? && FieldFits(Process, key, f[key], d.value, true)
  {
  }

  /** The fields `new Process()` stores conform to `Process.input_type`. */
  lemma ProcessConforms(c1: Node)
    requires c1.cls == Model
    ensures Conforms(Process, ProcessFields(c1), true)
  {
    forall key
      ensures InputType(Process, key) == Corrected(Process, key, ProcessInputType(key))
    {
      InputTypeOfProcess(key);
    }
    ProcessKeys(c1);
    ProcessFieldsFit(c1);
  }

  /** The nodes the fields of `new Process()` hold are the ones it builds for them. */
  lemma ProcessChildren(c1: Node)
    ensures forall x :: x in ChildNodes(ProcessFields(c1)) ==>
      x == c1
  {
  }

  /** The field of `new Process()` that holds each node it builds. */
  function ProcessOwner(c1: Node): map<Node, string>
  {
    map[c1 := "model"]
  }

  /** Each node the fields of `new Process()` hold is held at one place only. */
  lemma ProcessUnshared(c1: Node)
    requires c1.cls == Model
    ensures Unshared(ProcessFields(c1))
  {
    UnsharedByOwner(ProcessFields(c1), ProcessOwner(c1));
  }

  /** A node that holds the fields of `new Process()`, and whose child nodes
      are built for it and are not the node itself, is what `new Process()` builds. */
  lemma ProcessDefault(n: Node, c1: Node)
    requires n.cls == Process && n.fields == ProcessFields(c1)
    requires BuiltChild(n, c1) && c1.cls == Model
    ensures DefaultNode(n, Process)
    ensures forall x :: x in ChildNodes(n.fields) ==> x == c1
  {
    ProcessConforms(c1);
    ProcessChildren(c1);
    ProcessUnshared(c1);
  }

  /** `new Process()` allocates the node it returns and every node its fields hold. */
  twostate lemma ProcessFresh(new n: Node, new c1: Node)
    requires fresh(n) && fresh(c1)
    requires n.fields == ProcessFields(c1)
    ensures fresh(NodeAndChildren(n))
  {
    ProcessChildren(c1);
  }

  /** `new Process()`. */
  method NewProcess() returns (n: Node)
    ensures fresh(NodeAndChildren(n)) && DefaultNode(n, Process)
    ensures exists c1: Node :: n.fields == ProcessFields(c1)
  {
    var c1 := NewModel();
    n := new Node(Process, ProcessFields(c1));
    ProcessFresh(n, c1);
    ProcessDefault(n, c1);
  }

  /** The fields `new Model()` stores, given the nodes it builds for them. */
  function ModelFields(c1: Node, c2: Node): map<string, JsValue>
  {
    map[
      "set" := Bool(false),
      "model_name" := Str(""),
      "particle" := Str(""),
      "energy_range" := Bool(false),
      "e_max" := Ref(c1),
      "e_min" := Ref(c2)]
  }

  /** The keys `new Model()` stores are the keys `Model.input_type` describes. */
  lemma ModelKeys(c1: Node, c2: Node)
    ensures var f := ModelFields(c1, c2);
      forall key :: key in f <==> Corrected(Model, key, ModelInputType(key)).Some?
  {
  }

  /** Each field `new Model()` stores holds the initial value of its descriptor. */
  lemma ModelFieldsFit(c1: Node, c2: Node)
    requires c1.cls == SetE && c2.cls == SetE
    ensures var f := ModelFields(c1, c2);
      forall key :: key in f ==>
        var d := Corrected(Model, key, ModelInputType(key));
        d.Some? && FieldFits(Model, key, f[key], d.value, true)
  {
  }

  /** The fields `new Model()` stores conform to `Model.input_type`. */
  lemma ModelConforms(c1: Node, c2: Node)
    requires c1.cls == SetE && c2.cls == SetE
    ensures Conforms(Model, ModelFields(c1, c2), true)
  {
    forall key
      ensures InputType(Model, key) == Corrected(Model, key, ModelInputType(key))
    {
      InputTypeOfModel(key);
    }
    ModelKeys(c1, c2);
    ModelFieldsFit(c1, c2);
  }

  /** The nodes the fields of `new Model()` hold are the ones it builds for them. */
  lemma ModelChildren(c1: Node, c2: Node)
    ensures forall x :: x in ChildNodes(ModelFields(c1, c2)) ==>
      x == c1 || x == c2
  {
  }

  /** The field of `new Model()` that holds each node it builds. */
  function ModelOwner(c1: Node, c2: Node): map<Node, string>
  {
    map[c1 := "e_max", c2 := "e_min"]
  }

  /** The fields `set`, `model_name`, `particle` of `new Model()` hold only nodes it gives to them.
      */
  lemma ModelOwned1(c1: Node, c2: Node)
    requires c1.cls == SetE && c2.cls == SetE && c1 != c2
    ensures var f := ModelFields(c1, c2);
      forall key :: key in f && key in ["set", "model_name", "particle"] ==>
        OwnedBy(f[key], key, ModelOwner(c1, c2))
  {
  }

  /** The fields `energy_range`, `e_max`, `e_min` of `new Model()` hold only nodes it gives to
      them. */
  lemma ModelOwned2(c1: Node, c2: Node)
    requires c1.cls == SetE && c2.cls == SetE && c1 != c2
    ensures var f := ModelFields(c1, c2);
      forall key :: key in f && key in ["energy_range", "e_max", "e_min"] ==>
        OwnedBy(f[key], key, ModelOwner(c1, c2))
  {
  }

  /** Each node the fields of `new Model()` hold is held at one place only. */
  lemma ModelUnshared(c1: Node, c2: Node)
    requires c1.cls == SetE && c2.cls == SetE && c1 != c2
    ensures Unshared(ModelFields(c1, c2))
  {
    ModelOwned1(c1, c2);
    ModelOwned2(c1, c2);
    UnsharedByOwner(ModelFields(c1, c2), ModelOwner(c1, c2));
  }

  /** A node that holds the fields of `new Model()`, and whose child nodes
      are built for it and are not the node itself, is what `new Model()` builds. */
  lemma ModelDefault(n: Node, c1: Node, c2: Node)
    requires n.cls == Model && n.fields == ModelFields(c1, c2)
    requires BuiltChild(n, c1) && BuiltChild(n, c2) && c1.cls == SetE && c2.cls == SetE && c1 != c2
    ensures DefaultNode(n, Model)
    ensures forall x :: x in ChildNodes(n.fields) ==> x == c1 || x == c2
  {
    ModelConforms(c1, c2);
    ModelChildren(c1, c2);
    ModelUnshared(c1, c2);
  }

  /** `new Model()` allocates the node it returns and every node its fields hold. */
  twostate lemma ModelFresh(new n: Node, new c1: Node, new c2: Node)
    requires fresh(n) && fresh(c1) && fresh(c2)
    requires n.fields == ModelFields(c1, c2)
    ensures fresh(NodeAndChildren(n))
  {
    ModelChildren(c1, c2);
  }

  /** `new Model()`. */
  method NewModel() returns (n: Node)
    ensures fresh(NodeAndChildren(n)) && DefaultNode(n, Model)
    ensures exists c1: Node, c2: Node :: n.fields == ModelFields(c1, c2)
  {
    var c1 := NewSetE();
    var c2 := NewSetE();
    n := new Node(Model, ModelFields(c1, c2));
    ModelFresh(n, c1, c2);
    ModelDefault(n, c1, c2);
  }

  /** The fields `new SetE()` stores, given the nodes it builds for them. */
  function SetEFields(c1: Node): map<string, JsValue>
  {
    map[
      "value" := Ref(c1),
      "particle" := Str(""),
      "option" := Str("")]
  }

  /** The keys `new SetE()` stores are the keys `SetE.input_type` describes. */
  lemma SetEKeys(c1: Node)
    ensures var f := SetEFields(c1);
      forall key :: key in f <==> Corrected(SetE, key, SetEInputType(key)).Some?
  {
  }

  /** Each field `new SetE()` stores holds the initial value of its descriptor. */
  lemma SetEFieldsFit(c1: Node)
    requires c1.cls == Value
    ensures var f := SetEFields(c1);
      forall key :: key in f ==>
        var d := Corrected(SetE, key, SetEInputType(key));
        d.Some? && FieldFits(SetE, key, f[key], d.value, true)
  {
  }

  /** The fields `new SetE()` stores conform to `SetE.input_type`. */
  lemma SetEConforms(c1: Node)
    requires c1.cls == Value
    ensures Conforms(SetE, SetEFields(c1), true)
  {
    forall key
      ensures InputType(SetE, key) == Corrected(SetE, key, SetEInputType(key))
    {
      InputTypeOfSetE(key);
    }
    SetEKeys(c1);
    SetEFieldsFit(c1);
  }

  /** The nodes the fields of `new SetE()` hold are the ones it builds for them. */
  lemma SetEChildren(c1: Node)
    ensures forall x :: x in ChildNodes(SetEFields(c1)) ==>
      x == c1
  {
  }

  /** The field of `new SetE()` that holds each node it builds. */
  function SetEOwner(c1: Node): map<Node, string>
  {
    map[c1 := "value"]
  }

  /** Each node the fields of `new SetE()` hold is held at one place only. */
  lemma SetEUnshared(c1: Node)
    requires c1.cls == Value
    ensures Unshared(SetEFields(c1))
  {
    UnsharedByOwner(SetEFields(c1), SetEOwner(c1));
  }

  /** A node that holds the fields of `new SetE()`, and whose child nodes
      are built for it and are not the node itself, is what `new SetE()` builds. */
  lemma SetEDefault(n: Node, c1: Node)
    requires n.cls == SetE && n.fields == SetEFields(c1)
    requires BuiltChild(n, c1) && c1.cls == Value
    ensures DefaultNode(n, SetE)
    ensures forall x :: x in ChildNodes(n.fields) ==> x == c1
  {
    SetEConforms(c1);
    SetEChildren(c1);
    SetEUnshared(c1);
  }

  /** `new SetE()` allocates the node it returns and every node its fields hold. */
  twostate lemma SetEFresh(new n: Node, new c1: Node)
    requires fresh(n) && fresh(c1)
    requires n.fields == SetEFields(c1)
    ensures fresh(NodeAndChildren(n))
  {
    SetEChildren(c1);
  }

  /** `new SetE()`. */
  method NewSetE() returns (n: Node)
    ensures fresh(NodeAndChildren(n)) && DefaultNode(n, SetE)
    ensures exists c1: Node :: n.fields == SetEFields(c1)
  {
    var c1 := NewValue();
    n := new Node(SetE, SetEFields(c1));
    SetEFresh(n, c1);
    SetEDefault(n, c1);
  }

  /** The fields `new Flat()` stores, given the nodes it builds for them. */
  function FlatFields(c1: Node, c2: Node, c3: Node): map<string, JsValue>
  {
    map[
      "min" := Ref(c1),
      "max" := Ref(c2),
      "amplitude" := Ref(c3)]
  }

  /** The keys `new Flat()` stores are the keys `Flat.input_type` describes. */
  lemma FlatKeys(c1: Node, c2: Node, c3: Node)
    ensures var f := FlatFields(c1, c2, c3);
      forall key :: key in f <==> Corrected(Flat, key, FlatInputType(key)).Some?
  {
  }

  /** Each field `new Flat()` stores holds the initial value of its descriptor. */
  lemma FlatFieldsFit(c1: Node, c2: Node, c3: Node)
    requires c1.cls == Value && c2.cls == Value && c3.cls == Value
    ensures var f := FlatFields(c1, c2, c3);
      forall key :: key in f ==>
        var d := Corrected(Flat, key, FlatInputType(key));
        d.Some? && FieldFits(Flat, key, f[key], d.value, true)
  {
  }

  /** The fields `new Flat()` stores conform to `Flat.input_type`. */
  lemma FlatConforms(c1: Node, c2: Node, c3: Node)
    requires c1.cls == Value && c2.cls == Value && c3.cls == Value
    ensures Conforms(Flat, FlatFields(c1, c2, c3), true)
  {
    forall key
      ensures InputType(Flat, key) == Corrected(Flat, key, FlatInputType(key))
    {
      InputTypeOfFlat(key);
    }
    FlatKeys(c1, c2, c3);
    FlatFieldsFit(c1, c2, c3);
  }

  /** The nodes the fields of `new Flat()` hold are the ones it builds for them. */
  lemma FlatChildren(c1: Node, c2: Node, c3: Node)
    ensures forall x :: x in ChildNodes(FlatFields(c1, c2, c3)) ==>
      x == c1 || x == c2 || x == c3
  {
  }

  /** The field of `new Flat()` that holds each node it builds. */
  function FlatOwner(c1: Node, c2: Node, c3: Node): map<Node, string>
  {
    map[c1 := "min", c2 := "max", c3 := "amplitude"]
  }

  /** Each node the fields of `new Flat()` hold is held at one place only. */
  lemma FlatUnshared(c1: Node, c2: Node, c3: Node)
    requires c1.cls == Value && c2.cls == Value && c3.cls == Value && c1 != c2 && c1 != c3 &&
      c2 != c3
    ensures Unshared(FlatFields(c1, c2, c3))
  {
    UnsharedByOwner(FlatFields(c1, c2, c3), FlatOwner(c1, c2, c3));
  }

  /** A node that holds the fields of `new Flat()`, and whose child nodes
      are built for it and are not the node itself, is what `new Flat()` builds. */
  lemma FlatDefault(n: Node, c1: Node, c2: Node, c3: Node)
    requires n.cls == Flat && n.fields == FlatFields(c1, c2, c3)
    requires BuiltChild(n, c1) && BuiltChild(n, c2) && BuiltChild(n, c3) && c1.cls == Value &&
      c2.cls == Value && c3.cls == Value && c1 != c2 && c1 != c3 && c2 != c3
    ensures DefaultNode(n, Flat)
    ensures forall x :: x in ChildNodes(n.fields) ==> x == c1 || x == c2 || x == c3
  {
    FlatConforms(c1, c2, c3);
    FlatChildren(c1, c2, c3);
    FlatUnshared(c1, c2, c3);
  }

  /** `new Flat()` allocates the node it returns and every node its fields hold. */
  twostate lemma FlatFresh(new n: Node, new c1: Node, new c2: Node, new c3: Node)
    requires fresh(n) && fresh(c1) && fresh(c2) && fresh(c3)
    requires n.fields == FlatFields(c1, c2, c3)
    ensures fresh(NodeAndChildren(n))
  {
    FlatChildren(c1, c2, c3);
  }

  /** `new Flat()`. */
  method NewFlat() returns (n: Node)
    ensures fresh(NodeAndChildren(n)) && DefaultNode(n, Flat)
    ensures exists c1: Node, c2: Node, c3: Node :: n.fields == FlatFields(c1, c2, c3)
  {
    var c1 := NewValue();
    var c2 := NewValue();
    var c3 := NewValue();
    n := new Node(Flat, FlatFields(c1, c2, c3));
    FlatFresh(n, c1, c2, c3);
    FlatDefault(n, c1, c2, c3);
  }

  /** The fields `new Gaussian()` stores, given the nodes it builds for them. */
  function GaussianFields(c1: Node, c2: Node, c3: Node): map<string, JsValue>
  {
    map[
      "mean" := Ref(c1),
      "sigma" := Ref(c2),
      "amplitude" := Ref(c3)]
  }

  /** The keys `new Gaussian()` stores are the keys `Gaussian.input_type` describes. */
  lemma GaussianKeys(c1: Node, c2: Node, c3: Node)
    ensures var f := GaussianFields(c1, c2, c3);
      forall key :: key in f <==> Corrected(Gaussian, key, GaussianInputType(key)).Some?
  {
  }

  /** Each field `new Gaussian()` stores holds the initial value of its descriptor. */
  lemma GaussianFieldsFit(c1: Node, c2: Node, c3: Node)
    requires c1.cls == Value && c2.cls == Value && c3.cls == Value
    ensures var f := GaussianFields(c1, c2, c3);
      forall key :: key in f ==>
        var d := Corrected(Gaussian, key, GaussianInputType(key));
        d.Some? && FieldFits(Gaussian, key, f[key], d.value, true)
  {
  }

  /** The fields `new Gaussian()` stores conform to `Gaussian.input_type`. */
  lemma GaussianConforms(c1: Node, c2: Node, c3: Node)
    requires c1.cls == Value && c2.cls == Value && c3.cls == Value
    ensures Conforms(Gaussian, GaussianFields(c1, c2, c3), true)
  {
    forall key
      ensures InputType(Gaussian, key) == Corrected(Gaussian, key, GaussianInputType(key))
    {
      InputTypeOfGaussian(key);
    }
    GaussianKeys(c1, c2, c3);
    GaussianFieldsFit(c1, c2, c3);
  }

  /** The nodes the fields of `new Gaussian()` hold are the ones it builds for them. */
  lemma GaussianChildren(c1: Node, c2: Node, c3: Node)
    ensures forall x :: x in ChildNodes(GaussianFields(c1, c2, c3)) ==>
      x == c1 || x == c2 || x == c3
  {
  }

  /** The field of `new Gaussian()` that holds each node it builds. */
  function GaussianOwner(c1: Node, c2: Node, c3: Node): map<Node, string>
  {
    map[c1 := "mean", c2 := "sigma", c3 := "amplitude"]
  }

  /** Each node the fields of `new Gaussian()` hold is held at one place only. */
  lemma GaussianUnshared(c1: Node, c2: Node, c3: Node)
    requires c1.cls == Value && c2.cls == Value && c3.cls == Value && c1 != c2 && c1 != c3 &&
      c2 != c3
    ensures Unshared(GaussianFields(c1, c2, c3))
  {
    UnsharedByOwner(GaussianFields(c1, c2, c3), GaussianOwner(c1, c2, c3));
  }

  /** A node that holds the fields of `new Gaussian()`, and whose child nodes
      are built for it and are not the node itself, is what `new Gaussian()` builds. */
  lemma GaussianDefault(n: Node, c1: Node, c2: Node, c3: Node)
    requires n.cls == Gaussian && n.fields == GaussianFields(c1, c2, c3)
    requires BuiltChild(n, c1) && BuiltChild(n, c2) && BuiltChild(n, c3) && c1.cls == Value &&
      c2.cls == Value && c3.cls == Value && c1 != c2 && c1 != c3 && c2 != c3
    ensures DefaultNode(n, Gaussian)
    ensures forall x :: x in ChildNodes(n.fields) ==> x == c1 || x == c2 || x == c3
  {
    GaussianConforms(c1, c2, c3);
    GaussianChildren(c1, c2, c3);
    GaussianUnshared(c1, c2, c3);
  }

  /** `new Gaussian()` allocates the node it returns and every node its fields hold. */
  twostate lemma GaussianFresh(new n: Node, new c1: Node, new c2: Node, new c3: Node)
    requires fresh(n) && fresh(c1) && fresh(c2) && fresh(c3)
    requires n.fields == GaussianFields(c1, c2, c3)
    ensures fresh(NodeAndChildren(n))
  {
    GaussianChildren(c1, c2, c3);
  }

  /** `new Gaussian()`. */
  method NewGaussian() returns (n: Node)
    ensures fresh(NodeAndChildren(n)) && DefaultNode(n, Gaussian)
    ensures exists c1: Node, c2: Node, c3: Node :: n.fields == GaussianFields(c1, c2, c3)
  {
    var c1 := NewValue();
    var c2 := NewValue();
    var c3 := NewValue();
    n := new Node(Gaussian, GaussianFields(c1, c2, c3));
    GaussianFresh(n, c1, c2, c3);
    GaussianDefault(n, c1, c2, c3);
  }

  /** The fields `new Exponential()` stores, given the nodes it builds for them. */
  function ExponentialFields(c1: Node): map<string, JsValue>
  {
    map[
      "lambda" := Null,
      "amplitude" := Ref(c1)]
  }

  /** The fields `new Exponential()` stores conform to `Exponential.input_type`. */
  lemma ExponentialConforms(c1: Node)
    requires c1.cls == Value
    ensures Conforms(Exponential, ExponentialFields(c1), true)
  {
  }

  /** The nodes the fields of `new Exponential()` hold are the ones it builds for them. */
  lemma ExponentialChildren(c1: Node)
    ensures forall x :: x in ChildNodes(ExponentialFields(c1)) ==>
      x == c1
  {
  }

  /** The field of `new Exponential()` that holds each node it builds. */
  function ExponentialOwner(c1: Node): map<Node, string>
  {
    map[c1 := "amplitude"]
  }

  /** Each node the fields of `new Exponential()` hold is held at one place only. */
  lemma ExponentialUnshared(c1: Node)
    requires c1.cls == Value
    ensures Unshared(ExponentialFields(c1))
  {
    UnsharedByOwner(ExponentialFields(c1), ExponentialOwner(c1));
  }

  /** A node that holds the fields of `new Exponential()`, and whose child nodes
      are built for it and are not the node itself, is what `new Exponential()` builds. */
  lemma ExponentialDefault(n: Node, c1: Node)
    requires n.cls == Exponential && n.fields == ExponentialFields(c1)
    requires BuiltChild(n, c1) && c1.cls == Value
    ensures DefaultNode(n, Exponential)
    ensures forall x :: x in ChildNodes(n.fields) ==> x == c1
  {
    ExponentialConforms(c1);
    ExponentialChildren(c1);
    ExponentialUnshared(c1);
  }

  /** `new Exponential()` allocates the node it returns and every node its fields hold. */
  twostate lemma ExponentialFresh(new n: Node, new c1: Node)
    requires fresh(n) && fresh(c1)
    requires n.fields == ExponentialFields(c1)
    ensures fresh(NodeAndChildren(n))
  {
    ExponentialChildren(c1);
  }

  /** `new Exponential()`. */
  method NewExponential() returns (n: Node)
    ensures fresh(NodeAndChildren(n)) && DefaultNode(n, Exponential)
    ensures exists c1: Node :: n.fields == ExponentialFields(c1)
  {
    var c1 := NewValue();
    n := new Node(Exponential, ExponentialFields(c1));
    ExponentialFresh(n, c1);
    ExponentialDefault(n, c1);
  }

  /** The fields `new Manual()` stores. */
  function ManualFields(): map<string, JsValue>
  {
    map[
      "unit_x" := Str(""),
      "unit_y" := Str(""),
      "insert_point" := Arr([Null, Null]),
      "add_point" := Null,
      "auto_x_start" := Null]
  }

  /** The keys `new Manual()` stores are the keys `Manual.input_type` describes. */
  lemma ManualKeys()
    ensures var f := ManualFields();
      forall key :: key in f <==> Corrected(Manual, key, ManualInputType(key)).Some?
  {
  }

  /** Each field `new Manual()` stores holds the initial value of its descriptor. */
  lemma ManualFieldsFit()
    ensures var f := ManualFields();
      forall key :: key in f ==>
        var d := Corrected(Manual, key, ManualInputType(key));
        d.Some? && FieldFits(Manual, key, f[key], d.value, true)
  {
  }

  /** The fields `new Manual()` stores conform to `Manual.input_type`. */
  lemma ManualConforms()
    ensures Conforms(Manual, ManualFields(), true)
  {
    forall key
      ensures InputType(Manual, key) == Corrected(Manual, key, ManualInputType(key))
    {
      InputTypeOfManual(key);
    }
    ManualKeys();
    ManualFieldsFit();
  }

  /** The fields of `new Manual()` hold no node, and so share none. */
  lemma ManualChildren()
    ensures ChildNodes(ManualFields()) == {}
    ensures Unshared(ManualFields())
  {
  }

  /** A node that holds the fields of `new Manual()`, and whose child nodes
      are built for it and are not the node itself, is what `new Manual()` builds. */
  lemma ManualDefault(n: Node)
    requires n.cls == Manual && n.fields == ManualFields()
    ensures DefaultNode(n, Manual)
    ensures ChildNodes(n.fields) == {}
  {
    ManualConforms();
    ManualChildren();
  }

  /** `new Manual()`. */
  method NewManual() returns (n: Node)
    ensures fresh(NodeAndChildren(n)) && DefaultNode(n, Manual)
    ensures n.fields == ManualFields()
  {
    n := new Node(Manual, ManualFields());
    ManualDefault(n);
  }

  /** The fields `new File()` stores, given the nodes it builds for them. */
  function FileFields(c1: Node): map<string, JsValue>
  {
    map[
      "unit_x" := Str(""),
      "unit_y" := Str(""),
      "auto_x" := Bool(false),
      "auto_x_start" := Ref(c1),
      "file_name" := Str(""),
      "column_x" := Null,
      "column_y" := Null]
  }

  /** The keys `new File()` stores are the keys `File.input_type` describes. */
  lemma FileKeys(c1: Node)
    ensures var f := FileFields(c1);
      forall key :: key in f <==> Corrected(File, key, FileInputType(key)).Some?
  {
  }

  /** Each field `new File()` stores holds the initial value of its descriptor. */
  lemma FileFieldsFit(c1: Node)
    requires c1.cls == Value
    ensures var f := FileFields(c1);
      forall key :: key in f ==>
        var d := Corrected(File, key, FileInputType(key));
        d.Some? && FieldFits(File, key, f[key], d.value, true)
  {
  }

  /** The fields `new File()` stores conform to `File.input_type`. */
  lemma FileConforms(c1: Node)
    requires c1.cls == Value
    ensures Conforms(File, FileFields(c1), true)
  {
    forall key
      ensures InputType(File, key) == Corrected(File, key, FileInputType(key))
    {
      InputTypeOfFile(key);
    }
    FileKeys(c1);
    FileFieldsFit(c1);
  }

  /** The nodes the fields of `new File()` hold are the ones it builds for them. */
  lemma FileChildren(c1: Node)
    ensures forall x :: x in ChildNodes(FileFields(c1)) ==>
      x == c1
  {
  }

  /** The field of `new File()` that holds each node it builds. */
  function FileOwner(c1: Node): map<Node, string>
  {
    map[c1 := "auto_x_start"]
  }

  /** The fields `unit_x`, `unit_y`, `auto_x` of `new File()` hold only nodes it gives to them. */
  lemma FileOwned1(c1: Node)
    requires c1.cls == Value
    ensures var f := FileFields(c1);
      forall key :: key in f && key in ["unit_x", "unit_y", "auto_x"] ==>
        OwnedBy(f[key], key, FileOwner(c1))
  {
  }

  /** The fields `auto_x_start`, `file_name`, `column_x`, `column_y` of `new File()` hold only
      nodes it gives to them. */
  lemma FileOwned2(c1: Node)
    requires c1.cls == Value
    ensures var f := FileFields(c1);
      forall key :: key in f && key in ["auto_x_start", "file_name", "column_x", "column_y"] ==>
        OwnedBy(f[key], key, FileOwner(c1))
  {
  }

  /** Each node the fields of `new File()` hold is held at one place only. */
  lemma FileUnshared(c1: Node)
    requires c1.cls == Value
    ensures Unshared(FileFields(c1))
  {
    FileOwned1(c1);
    FileOwned2(c1);
    UnsharedByOwner(FileFields(c1), FileOwner(c1));
  }

  /** A node that holds the fields of `new File()`, and whose child nodes
      are built for it and are not the node itself, is what `new File()` builds. */
  lemma FileDefault(n: Node, c1: Node)
    requires n.cls == File && n.fields == FileFields(c1)
    requires BuiltChild(n, c1) && c1.cls == Value
    ensures DefaultNode(n, File)
    ensures forall x :: x in ChildNodes(n.fields) ==> x == c1
  {
    FileConforms(c1);
    FileChildren(c1);
    FileUnshared(c1);
  }

  /** `new File()` allocates the node it returns and every node its fields hold. */
  twostate lemma FileFresh(new n: Node, new c1: Node)
    requires fresh(n) && fresh(c1)
    requires n.fields == FileFields(c1)
    ensures fresh(NodeAndChildren(n))
  {
    FileChildren(c1);
  }

  /** `new File()`. */
  method NewFile() returns (n: Node)
    ensures fresh(NodeAndChildren(n)) && DefaultNode(n, File)
    ensures exists c1: Node :: n.fields == FileFields(c1)
  {
    var c1 := NewValue();
    n := new Node(File, FileFields(c1));
    FileFresh(n, c1);
    FileDefault(n, c1);
  }

  /** The fields `new Digitizer()` stores, given the nodes it builds for them. */
  function DigitizerFields(c1: Node, c2: Node, c3: Node, c4: Node, c5: Node, c6: Node, c7: Node,
      c8: Node, c9: Node, c10: Node, c11: Node, c12: Node, c13: Node, c14: Node, c15: Node,
      c16: Node, c17: Node): map<string, JsValue>
  {
    map[
      "adder" := Ref(c1),
      "readout" := Ref(c2),
      "blurring" := Ref(c3),
      "calibration" := Ref(c4),
      "crosstalk" := Ref(c5),
      "thresholder" := Ref(c6),
      "upholder" := Ref(c7),
      "window" := Arr([Ref(c8)]),
      "sigmoidal_thresholder" := Ref(c9),
      "time_resolution" := Ref(c10),
      "noise" := Ref(c11),
      "local_efficiency" := Ref(c12),
      "buffer" := Ref(c13),
      "pileup" := Ref(c14),
      "deadtime" := Ref(c15),
      "coincidences" := Ref(c16),
      "coincidence_sorter" := Ref(c17)]
  }

  /** The keys `new Digitizer()` stores are the keys `Digitizer.input_type` describes. */
  lemma DigitizerKeys(c1: Node, c2: Node, c3: Node, c4: Node, c5: Node, c6: Node, c7: Node,
      c8: Node, c9: Node, c10: Node, c11: Node, c12: Node, c13: Node, c14: Node, c15: Node,
      c16: Node, c17: Node)
    ensures var f := DigitizerFields(c1, c2, c3, c4, c5, c6, c7, c8, c9, c10, c11, c12, c13, c14,
        c15, c16, c17);
      forall key :: key in f <==> Corrected(Digitizer, key, DigitizerInputType(key)).Some?
  {
  }

  /** The fields `adder`, `readout`, `blurring` that `new Digitizer()` stores hold the initial
      values of their descriptors. */
  lemma DigitizerFieldsFit1(c1: Node, c2: Node, c3: Node, c4: Node, c5: Node, c6: Node, c7: Node,
      c8: Node, c9: Node, c10: Node, c11: Node, c12: Node, c13: Node, c14: Node, c15: Node,
      c16: Node, c17: Node)
    requires c1.cls == Adder && c2.cls == Readout && c3.cls == Blurring && c4.cls == Calibration &&
      c5.cls == Crosstalk && c6.cls == Thresholder && c7.cls == Upholder && c8.cls == Window &&
      c9.cls == SigmoidalThresholder && c10.cls == TimeResolution && c11.cls == Noise &&
      c12.cls == LocalEfficiency && c13.cls == Buffer && c14.cls == Pileup && c15.cls == DeadTime &&
      c16.cls == Coincidences && c17.cls == CoincidenceSorter
    ensures var f := DigitizerFields(c1, c2, c3, c4, c5, c6, c7, c8, c9, c10, c11, c12, c13, c14,
        c15, c16, c17);
      forall key :: key in f && key in ["adder", "readout", "blurring"] ==>
        var d := Corrected(Digitizer, key, DigitizerInputType(key));
        d.Some? && FieldFits(Digitizer, key, f[key], d.value, true)
  {
  }

  /** The fields `calibration`, `crosstalk`, `thresholder` that `new Digitizer()` stores hold the
      initial values of their descriptors. */
  lemma DigitizerFieldsFit2(c1: Node, c2: Node, c3: Node, c4: Node, c5: Node, c6: Node, c7: Node,
      c8: Node, c9: Node, c10: Node, c11: Node, c12: Node, c13: Node, c14: Node, c15: Node,
      c16: Node, c17: Node)
    requires c1.cls == Adder && c2.cls == Readout && c3.cls == Blurring && c4.cls == Calibration &&
      c5.cls == Crosstalk && c6.cls == Thresholder && c7.cls == Upholder && c8.cls == Window &&
      c9.cls == SigmoidalThresholder && c10.cls == TimeResolution && c11.cls == Noise &&
      c12.cls == LocalEfficiency && c13.cls == Buffer && c14.cls == Pileup && c15.cls == DeadTime &&
      c16.cls == Coincidences && c17.cls == CoincidenceSorter
    ensures var f := DigitizerFields(c1, c2, c3, c4, c5, c6, c7, c8, c9, c10, c11, c12, c13, c14,
        c15, c16, c17);
      forall key :: key in f && key in ["calibration", "crosstalk", "thresholder"] ==>
        var d := Corrected(Digitizer, key, DigitizerInputType(key));
        d.Some? && FieldFits(Digitizer, key, f[key], d.value, true)
  {
  }

  /** The fields `upholder`, `window`, `sigmoidal_thresholder` that `new Digitizer()` stores hold
      the initial values of their descriptors. */
  lemma DigitizerFieldsFit3(c1: Node, c2: Node, c3: Node, c4: Node, c5: Node, c6: Node, c7: Node,
      c8: Node, c9: Node, c10: Node, c11: Node, c12: Node, c13: Node, c14: Node, c15: Node,
      c16: Node, c17: Node)
    requires c1.cls == Adder && c2.cls == Readout && c3.cls == Blurring && c4.cls == Calibration &&
      c5.cls == Crosstalk && c6.cls == Thresholder && c7.cls == Upholder && c8.cls == Window &&
      c9.cls == SigmoidalThresholder && c10.cls == TimeResolution && c11.cls == Noise &&
      c12.cls == LocalEfficiency && c13.cls == Buffer && c14.cls == Pileup && c15.cls == DeadTime &&
      c16.cls == Coincidences && c17.cls == CoincidenceSorter
    ensures var f := DigitizerFields(c1, c2, c3, c4, c5, c6, c7, c8, c9, c10, c11, c12, c13, c14,
        c15, c16, c17);
      forall key :: key in f && key in ["upholder", "window", "sigmoidal_thresholder"] ==>
        var d := Corrected(Digitizer, key, DigitizerInputType(key));
        d.Some? && FieldFits(Digitizer, key, f[key], d.value, true)
  {
  }

  /** The fields `time_resolution`, `noise`, `local_efficiency` that `new Digitizer()` stores hold
      the initial values of their descriptors. */
  lemma DigitizerFieldsFit4(c1: Node, c2: Node, c3: Node, c4: Node, c5: Node, c6: Node, c7: Node,
      c8: Node, c9: Node, c10: Node, c11: Node, c12: Node, c13: Node, c14: Node, c15: Node,
      c16: Node, c17: Node)
    requires c1.cls == Adder && c2.cls == Readout && c3.cls == Blurring && c4.cls == Calibration &&
      c5.cls == Crosstalk && c6.cls == Thresholder && c7.cls == Upholder && c8.cls == Window &&
      c9.cls == SigmoidalThresholder && c10.cls == TimeResolution && c11.cls == Noise &&
      c12.cls == LocalEfficiency && c13.cls == Buffer && c14.cls == Pileup && c15.cls == DeadTime &&
      c16.cls == Coincidences && c17.cls == CoincidenceSorter
    ensures var f := DigitizerFields(c1, c2, c3, c4, c5, c6, c7, c8, c9, c10, c11, c12, c13, c14,
        c15, c16, c17);
      forall key :: key in f && key in ["time_resolution", "noise", "local_efficiency"] ==>
        var d := Corrected(Digitizer, key, DigitizerInputType(key));
        d.Some? && FieldFits(Digitizer, key, f[key], d.value, true)
  {
  }

  /** The fields `buffer`, `pileup`, `deadtime` that `new Digitizer()` stores hold the initial
      values of their descriptors. */
  lemma DigitizerFieldsFit5(c1: Node, c2: Node, c3: Node, c4: Node, c5: Node, c6: Node, c7: Node,
      c8: Node, c9: Node, c10: Node, c11: Node, c12: Node, c13: Node, c14: Node, c15: Node,
      c16: Node, c17: Node)
    requires c1.cls == Adder && c2.cls == Readout && c3.cls == Blurring && c4.cls == Calibration &&
      c5.cls == Crosstalk && c6.cls == Thresholder && c7.cls == Upholder && c8.cls == Window &&
      c9.cls == SigmoidalThresholder && c10.cls == TimeResolution && c11.cls == Noise &&
      c12.cls == LocalEfficiency && c13.cls == Buffer && c14.cls == Pileup && c15.cls == DeadTime &&
      c16.cls == Coincidences && c17.cls == CoincidenceSorter
    ensures var f := DigitizerFields(c1, c2, c3, c4, c5, c6, c7, c8, c9, c10, c11, c12, c13, c14,
        c15, c16, c17);
      forall key :: key in f && key in ["buffer", "pileup", "deadtime"] ==>
        var d := Corrected(Digitizer, key, DigitizerInputType(key));
        d.Some? && FieldFits(Digitizer, key, f[key], d.value, true)
  {
  }

  /** The fields `coincidences`, `coincidence_sorter` that `new Digitizer()` stores hold the initial
      values of their descriptors. */
  lemma DigitizerFieldsFit6(c1: Node, c2: Node, c3: Node, c4: Node, c5: Node, c6: Node, c7: Node,
      c8: Node, c9: Node, c10: Node, c11: Node, c12: Node, c13: Node, c14: Node, c15: Node,
      c16: Node, c17: Node)
    requires c1.cls == Adder && c2.cls == Readout && c3.cls == Blurring && c4.cls == Calibration &&
      c5.cls == Crosstalk && c6.cls == Thresholder && c7.cls == Upholder && c8.cls == Window &&
      c9.cls == SigmoidalThresholder && c10.cls == TimeResolution && c11.cls == Noise &&
      c12.cls == LocalEfficiency && c13.cls == Buffer && c14.cls == Pileup && c15.cls == DeadTime &&
      c16.cls == Coincidences && c17.cls == CoincidenceSorter
    ensures var f := DigitizerFields(c1, c2, c3, c4, c5, c6, c7, c8, c9, c10, c11, c12, c13, c14,
        c15, c16, c17);
      forall key :: key in f && key in ["coincidences", "coincidence_sorter"] ==>
        var d := Corrected(Digitizer, key, DigitizerInputType(key));
        d.Some? && FieldFits(Digitizer, key, f[key], d.value, true)
  {
  }

  /** Each field `new Digitizer()` stores holds the initial value of its descriptor. */
  lemma DigitizerFieldsFit(c1: Node, c2: Node, c3: Node, c4: Node, c5: Node, c6: Node, c7: Node,
      c8: Node, c9: Node, c10: Node, c11: Node, c12: Node, c13: Node, c14: Node, c15: Node,
      c16: Node, c17: Node)
    requires c1.cls == Adder && c2.cls == Readout && c3.cls == Blurring && c4.cls == Calibration &&
      c5.cls == Crosstalk && c6.cls == Thresholder && c7.cls == Upholder && c8.cls == Window &&
      c9.cls == SigmoidalThresholder && c10.cls == TimeResolution && c11.cls == Noise &&
      c12.cls == LocalEfficiency && c13.cls == Buffer && c14.cls == Pileup && c15.cls == DeadTime &&
      c16.cls == Coincidences && c17.cls == CoincidenceSorter
    ensures var f := DigitizerFields(c1, c2, c3, c4, c5, c6, c7, c8, c9, c10, c11, c12, c13, c14,
        c15, c16, c17);
      forall key :: key in f ==>
        var d := Corrected(Digitizer, key, DigitizerInputType(key));
        d.Some? && FieldFits(Digitizer, key, f[key], d.value, true)
  {
    DigitizerFieldsFit1(c1, c2, c3, c4, c5, c6, c7, c8, c9, c10, c11, c12, c13, c14, c15, c16, c17);
    DigitizerFieldsFit2(c1, c2, c3, c4, c5, c6, c7, c8, c9, c10, c11, c12, c13, c14, c15, c16, c17);
    DigitizerFieldsFit3(c1, c2, c3, c4, c5, c6, c7, c8, c9, c10, c11, c12, c13, c14, c15, c16, c17);
    DigitizerFieldsFit4(c1, c2, c3, c4, c5, c6, c7, c8, c9, c10, c11, c12, c13, c14, c15, c16, c17);
    DigitizerFieldsFit5(c1, c2, c3, c4, c5, c6, c7, c8, c9, c10, c11, c12, c13, c14, c15, c16, c17);
    DigitizerFieldsFit6(c1, c2, c3, c4, c5, c6, c7, c8, c9, c10, c11, c12, c13, c14, c15, c16, c17);
  }

  /** The fields `new Digitizer()` stores conform to `Digitizer.input_type`. */
  lemma DigitizerConforms(c1: Node, c2: Node, c3: Node, c4: Node, c5: Node, c6: Node, c7: Node,
      c8: Node, c9: Node, c10: Node, c11: Node, c12: Node, c13: Node, c14: Node, c15: Node,
      c16: Node, c17: Node)
    requires c1.cls == Adder && c2.cls == Readout && c3.cls == Blurring && c4.cls == Calibration &&
      c5.cls == Crosstalk && c6.cls == Thresholder && c7.cls == Upholder && c8.cls == Window &&
      c9.cls == SigmoidalThresholder && c10.cls == TimeResolution && c11.cls == Noise &&
      c12.cls == LocalEfficiency && c13.cls == Buffer && c14.cls == Pileup && c15.cls == DeadTime &&
      c16.cls == Coincidences && c17.cls == CoincidenceSorter
    ensures Conforms(Digitizer, DigitizerFields(c1, c2, c3, c4, c5, c6, c7, c8, c9, c10, c11, c12,
        c13, c14, c15, c16, c17), true)
  {
    DigitizerKeys(c1, c2, c3, c4, c5, c6, c7, c8, c9, c10, c11, c12, c13, c14, c15, c16, c17);
    DigitizerFieldsFit(c1, c2, c3, c4, c5, c6, c7, c8, c9, c10, c11, c12, c13, c14, c15, c16, c17);
  }

  /** The nodes the fields of `new Digitizer()` hold are the ones it builds for them. */
  lemma DigitizerChildren(c1: Node, c2: Node, c3: Node, c4: Node, c5: Node, c6: Node, c7: Node,
      c8: Node, c9: Node, c10: Node, c11: Node, c12: Node, c13: Node, c14: Node, c15: Node,
      c16: Node, c17: Node)
    ensures forall x :: x in ChildNodes(DigitizerFields(c1, c2, c3, c4, c5, c6, c7, c8, c9, c10,
        c11, c12, c13, c14, c15, c16, c17)) ==>
      x == c1 || x == c2 || x == c3 || x == c4 || x == c5 || x == c6 || x == c7 || x == c8 ||
      x == c9 || x == c10 || x == c11 || x == c12 || x == c13 || x == c14 || x == c15 || x == c16 ||
      x == c17
  {
  }

  /** The field of `new Digitizer()` that holds each node it builds. */
  function DigitizerOwner(c1: Node, c2: Node, c3: Node, c4: Node, c5: Node, c6: Node, c7: Node,
      c8: Node, c9: Node, c10: Node, c11: Node, c12: Node, c13: Node, c14: Node, c15: Node,
      c16: Node, c17: Node): map<Node, string>
  {
    map[c1 := "adder", c2 := "readout", c3 := "blurring", c4 := "calibration", c5 := "crosstalk",
      c6 := "thresholder", c7 := "upholder", c8 := "window", c9 := "sigmoidal_thresholder",
      c10 := "time_resolution", c11 := "noise", c12 := "local_efficiency", c13 := "buffer",
      c14 := "pileup", c15 := "deadtime", c16 := "coincidences", c17 := "coincidence_sorter"]
  }

  /** The fields `adder`, `readout`, `blurring` of `new Digitizer()` hold only nodes it gives to
      them. */
  lemma DigitizerOwned1(c1: Node, c2: Node, c3: Node, c4: Node, c5: Node, c6: Node, c7: Node,
      c8: Node, c9: Node, c10: Node, c11: Node, c12: Node, c13: Node, c14: Node, c15: Node,
      c16: Node, c17: Node)
    requires c1.cls == Adder && c2.cls == Readout && c3.cls == Blurring && c4.cls == Calibration &&
      c5.cls == Crosstalk && c6.cls == Thresholder && c7.cls == Upholder && c8.cls == Window &&
      c9.cls == SigmoidalThresholder && c10.cls == TimeResolution && c11.cls == Noise &&
      c12.cls == LocalEfficiency && c13.cls == Buffer && c14.cls == Pileup && c15.cls == DeadTime &&
      c16.cls == Coincidences && c17.cls == CoincidenceSorter
    ensures var f := DigitizerFields(c1, c2, c3, c4, c5, c6, c7, c8, c9, c10, c11, c12, c13, c14,
        c15, c16, c17);
      forall key :: key in f && key in ["adder", "readout", "blurring"] ==>
        OwnedBy(f[key], key, DigitizerOwner(c1, c2, c3, c4, c5, c6, c7, c8, c9, c10, c11, c12, c13,
            c14, c15, c16, c17))
  {
  }

  /** The fields `calibration`, `crosstalk`, `thresholder` of `new Digitizer()` hold only nodes it
      gives to them. */
  lemma DigitizerOwned2(c1: Node, c2: Node, c3: Node, c4: Node, c5: Node, c6: Node, c7: Node,
      c8: Node, c9: Node, c10: Node, c11: Node, c12: Node, c13: Node, c14: Node, c15: Node,
      c16: Node, c17: Node)
    requires c1.cls == Adder && c2.cls == Readout && c3.cls == Blurring && c4.cls == Calibration &&
      c5.cls == Crosstalk && c6.cls == Thresholder && c7.cls == Upholder && c8.cls == Window &&
      c9.cls == SigmoidalThresholder && c10.cls == TimeResolution && c11.cls == Noise &&
      c12.cls == LocalEfficiency && c13.cls == Buffer && c14.cls == Pileup && c15.cls == DeadTime &&
      c16.cls == Coincidences && c17.cls == CoincidenceSorter
    ensures var f := DigitizerFields(c1, c2, c3, c4, c5, c6, c7, c8, c9, c10, c11, c12, c13, c14,
        c15, c16, c17);
      forall key :: key in f && key in ["calibration", "crosstalk", "thresholder"] ==>
        OwnedBy(f[key], key, DigitizerOwner(c1, c2, c3, c4, c5, c6, c7, c8, c9, c10, c11, c12, c13,
            c14, c15, c16, c17))
  {
  }

  /** The fields `upholder`, `window`, `sigmoidal_thresholder` of `new Digitizer()` hold only nodes
      it gives to them. */
  lemma DigitizerOwned3(c1: Node, c2: Node, c3: Node, c4: Node, c5: Node, c6: Node, c7: Node,
      c8: Node, c9: Node, c10: Node, c11: Node, c12: Node, c13: Node, c14: Node, c15: Node,
      c16: Node, c17: Node)
    requires c1.cls == Adder && c2.cls == Readout && c3.cls == Blurring && c4.cls == Calibration &&
      c5.cls == Crosstalk && c6.cls == Thresholder && c7.cls == Upholder && c8.cls == Window &&
      c9.cls == SigmoidalThresholder && c10.cls == TimeResolution && c11.cls == Noise &&
      c12.cls == LocalEfficiency && c13.cls == Buffer && c14.cls == Pileup && c15.cls == DeadTime &&
      c16.cls == Coincidences && c17.cls == CoincidenceSorter
    ensures var f := DigitizerFields(c1, c2, c3, c4, c5, c6, c7, c8, c9, c10, c11, c12, c13, c14,
        c15, c16, c17);
      forall key :: key in f && key in ["upholder", "window", "sigmoidal_thresholder"] ==>
        OwnedBy(f[key], key, DigitizerOwner(c1, c2, c3, c4, c5, c6, c7, c8, c9, c10, c11, c12, c13,
            c14, c15, c16, c17))
  {
  }

  /** The fields `time_resolution`, `noise`, `local_efficiency` of `new Digitizer()` hold only
      nodes it gives to them. */
  lemma DigitizerOwned4(c1: Node, c2: Node, c3: Node, c4: Node, c5: Node, c6: Node, c7: Node,
      c8: Node, c9: Node, c10: Node, c11: Node, c12: Node, c13: Node, c14: Node, c15: Node,
      c16: Node, c17: Node)
    requires c1.cls == Adder && c2.cls == Readout && c3.cls == Blurring && c4.cls == Calibration &&
      c5.cls == Crosstalk && c6.cls == Thresholder && c7.cls == Upholder && c8.cls == Window &&
      c9.cls == SigmoidalThresholder && c10.cls == TimeResolution && c11.cls == Noise &&
      c12.cls == LocalEfficiency && c13.cls == Buffer && c14.cls == Pileup && c15.cls == DeadTime &&
      c16.cls == Coincidences && c17.cls == CoincidenceSorter
    ensures var f := DigitizerFields(c1, c2, c3, c4, c5, c6, c7, c8, c9, c10, c11, c12, c13, c14,
        c15, c16, c17);
      forall key :: key in f && key in ["time_resolution", "noise", "local_efficiency"] ==>
        OwnedBy(f[key], key, DigitizerOwner(c1, c2, c3, c4, c5, c6, c7, c8, c9, c10, c11, c12, c13,
            c14, c15, c16, c17))
  {
  }

  /** The fields `buffer`, `pileup`, `deadtime` of `new Digitizer()` hold only nodes it gives to
      them. */
  lemma DigitizerOwned5(c1: Node, c2: Node, c3: Node, c4: Node, c5: Node, c6: Node, c7: Node,
      c8: Node, c9: Node, c10: Node, c11: Node, c12: Node, c13: Node, c14: Node, c15: Node,
      c16: Node, c17: Node)
    requires c1.cls == Adder && c2.cls == Readout && c3.cls == Blurring && c4.cls == Calibration &&
      c5.cls == Crosstalk && c6.cls == Thresholder && c7.cls == Upholder && c8.cls == Window &&
      c9.cls == SigmoidalThresholder && c10.cls == TimeResolution && c11.cls == Noise &&
      c12.cls == LocalEfficiency && c13.cls == Buffer && c14.cls == Pileup && c15.cls == DeadTime &&
      c16.cls == Coincidences && c17.cls == CoincidenceSorter
    ensures var f := DigitizerFields(c1, c2, c3, c4, c5, c6, c7, c8, c9, c10, c11, c12, c13, c14,
        c15, c16, c17);
      forall key :: key in f && key in ["buffer", "pileup", "deadtime"] ==>
        OwnedBy(f[key], key, DigitizerOwner(c1, c2, c3, c4, c5, c6, c7, c8, c9, c10, c11, c12, c13,
            c14, c15, c16, c17))
  {
  }

  /** The fields `coincidences`, `coincidence_sorter` of `new Digitizer()` hold only nodes it gives
      to them. */
  lemma DigitizerOwned6(c1: Node, c2: Node, c3: Node, c4: Node, c5: Node, c6: Node, c7: Node,
      c8: Node, c9: Node, c10: Node, c11: Node, c12: Node, c13: Node, c14: Node, c15: Node,
      c16: Node, c17: Node)
    requires c1.cls == Adder && c2.cls == Readout && c3.cls == Blurring && c4.cls == Calibration &&
      c5.cls == Crosstalk && c6.cls == Thresholder && c7.cls == Upholder && c8.cls == Window &&
      c9.cls == SigmoidalThresholder && c10.cls == TimeResolution && c11.cls == Noise &&
      c12.cls == LocalEfficiency && c13.cls == Buffer && c14.cls == Pileup && c15.cls == DeadTime &&
      c16.cls == Coincidences && c17.cls == CoincidenceSorter
    ensures var f := DigitizerFields(c1, c2, c3, c4, c5, c6, c7, c8, c9, c10, c11, c12, c13, c14,
        c15, c16, c17);
      forall key :: key in f && key in ["coincidences", "coincidence_sorter"] ==>
        OwnedBy(f[key], key, DigitizerOwner(c1, c2, c3, c4, c5, c6, c7, c8, c9, c10, c11, c12, c13,
            c14, c15, c16, c17))
  {
  }

  /** Each node the fields of `new Digitizer()` hold is held at one place only. */
  lemma DigitizerUnshared(c1: Node, c2: Node, c3: Node, c4: Node, c5: Node, c6: Node, c7: Node,
      c8: Node, c9: Node, c10: Node, c11: Node, c12: Node, c13: Node, c14: Node, c15: Node,
      c16: Node, c17: Node)
    requires c1.cls == Adder && c2.cls == Readout && c3.cls == Blurring && c4.cls == Calibration &&
      c5.cls == Crosstalk && c6.cls == Thresholder && c7.cls == Upholder && c8.cls == Window &&
      c9.cls == SigmoidalThresholder && c10.cls == TimeResolution && c11.cls == Noise &&
      c12.cls == LocalEfficiency && c13.cls == Buffer && c14.cls == Pileup && c15.cls == DeadTime &&
      c16.cls == Coincidences && c17.cls == CoincidenceSorter
    ensures Unshared(DigitizerFields(c1, c2, c3, c4, c5, c6, c7, c8, c9, c10, c11, c12, c13, c14,
        c15, c16, c17))
  {
    DigitizerOwned1(c1, c2, c3, c4, c5, c6, c7, c8, c9, c10, c11, c12, c13, c14, c15, c16, c17);
    DigitizerOwned2(c1, c2, c3, c4, c5, c6, c7, c8, c9, c10, c11, c12, c13, c14, c15, c16, c17);
    DigitizerOwned3(c1, c2, c3, c4, c5, c6, c7, c8, c9, c10, c11, c12, c13, c14, c15, c16, c17);
    DigitizerOwned4(c1, c2, c3, c4, c5, c6, c7, c8, c9, c10, c11, c12, c13, c14, c15, c16, c17);
    DigitizerOwned5(c1, c2, c3, c4, c5, c6, c7, c8, c9, c10, c11, c12, c13, c14, c15, c16, c17);
    DigitizerOwned6(c1, c2, c3, c4, c5, c6, c7, c8, c9, c10, c11, c12, c13, c14, c15, c16, c17);
    UnsharedByOwner(DigitizerFields(c1, c2, c3, c4, c5, c6, c7, c8, c9, c10, c11, c12, c13, c14,
        c15, c16, c17),
      DigitizerOwner(c1, c2, c3, c4, c5, c6, c7, c8, c9, c10, c11, c12, c13, c14, c15, c16, c17));
  }

  /** A node that holds the fields of `new Digitizer()`, and whose child nodes
      are built for it and are not the node itself, is what `new Digitizer()` builds. */
  lemma DigitizerDefault(n: Node, c1: Node, c2: Node, c3: Node, c4: Node, c5: Node, c6: Node,
      c7: Node, c8: Node, c9: Node, c10: Node, c11: Node, c12: Node, c13: Node, c14: Node,
      c15: Node, c16: Node, c17: Node)
    requires n.cls == Digitizer &&
      n.fields == DigitizerFields(c1, c2, c3, c4, c5, c6, c7, c8, c9, c10, c11, c12, c13, c14, c15,
          c16, c17)
    requires BuiltChild(n, c1) && BuiltChild(n, c2) && BuiltChild(n, c3) && BuiltChild(n, c4) &&
      BuiltChild(n, c5) && BuiltChild(n, c6) && BuiltChild(n, c7) && BuiltChild(n, c8) &&
      BuiltChild(n, c9) && BuiltChild(n, c10) && BuiltChild(n, c11) && BuiltChild(n, c12) &&
      BuiltChild(n, c13) && BuiltChild(n, c14) && BuiltChild(n, c15) && BuiltChild(n, c16) &&
      BuiltChild(n, c17) && c1.cls == Adder && c2.cls == Readout && c3.cls == Blurring &&
      c4.cls == Calibration && c5.cls == Crosstalk && c6.cls == Thresholder && c7.cls == Upholder &&
      c8.cls == Window && c9.cls == SigmoidalThresholder && c10.cls == TimeResolution &&
      c11.cls == Noise && c12.cls == LocalEfficiency && c13.cls == Buffer && c14.cls == Pileup &&
      c15.cls == DeadTime && c16.cls == Coincidences && c17.cls == CoincidenceSorter
    ensures DefaultNode(n, Digitizer)
    ensures forall x :: x in ChildNodes(n.fields) ==>
      x == c1 || x == c2 || x == c3 || x == c4 || x == c5 || x == c6 || x == c7 || x == c8 ||
      x == c9 || x == c10 || x == c11 || x == c12 || x == c13 || x == c14 || x == c15 || x == c16 ||
      x == c17
  {
    DigitizerConforms(c1, c2, c3, c4, c5, c6, c7, c8, c9, c10, c11, c12, c13, c14, c15, c16, c17);
    DigitizerChildren(c1, c2, c3, c4, c5, c6, c7, c8, c9, c10, c11, c12, c13, c14, c15, c16, c17);
    DigitizerUnshared(c1, c2, c3, c4, c5, c6, c7, c8, c9, c10, c11, c12, c13, c14, c15, c16, c17);
  }

  /** `new Digitizer()` allocates the node it returns and every node its fields hold. */
  twostate lemma DigitizerFresh(new n: Node, new c1: Node, new c2: Node, new c3: Node, new c4: Node,
      new c5: Node, new c6: Node, new c7: Node, new c8: Node, new c9: Node, new c10: Node,
      new c11: Node, new c12: Node, new c13: Node, new c14: Node, new c15: Node, new c16: Node,
      new c17: Node)
    requires fresh(n) && fresh(c1) && fresh(c2) && fresh(c3) && fresh(c4) && fresh(c5) &&
      fresh(c6) && fresh(c7) && fresh(c8) && fresh(c9) && fresh(c10) && fresh(c11) && fresh(c12) &&
      fresh(c13) && fresh(c14) && fresh(c15) && fresh(c16) && fresh(c17)
    requires n.fields == DigitizerFields(c1, c2, c3, c4, c5, c6, c7, c8, c9, c10, c11, c12, c13, c14, c15, c16, c17)
    ensures fresh(NodeAndChildren(n))
  {
    DigitizerChildren(c1, c2, c3, c4, c5, c6, c7, c8, c9, c10, c11, c12, c13, c14, c15, c16, c17);
  }

  /** `new Digitizer()`. */
  method NewDigitizer() returns (n: Node)
    ensures fresh(NodeAndChildren(n)) && DefaultNode(n, Digitizer)
    ensures
      exists c1: Node, c2: Node, c3: Node, c4: Node, c5: Node, c6: Node, c7: Node, c8: Node,
        c9: Node, c10: Node, c11: Node, c12: Node, c13: Node, c14: Node, c15: Node, c16: Node,
        c17: Node ::
        n.fields == DigitizerFields(c1, c2, c3, c4, c5, c6, c7, c8, c9, c10, c11, c12, c13, c14,
          c15, c16, c17)
  {
    var c1 := NewAdder();
    var c2 := NewReadout();
    var c3 := NewBlurring();
    var c4 := NewCalibration();
    var c5 := NewCrosstalk();
    var c6 := NewThresholder();
    var c7 := NewUpholder();
    var c8 := NewWindow();
    var c9 := NewSigmoidalThresholder();
    var c10 := NewTimeResolution();
    var c11 := NewNoise();
    var c12 := NewLocalEfficiency();
    var c13 := NewBuffer();
    var c14 := NewPileup();
    var c15 := NewDeadTime();
    var c16 := NewCoincidences();
    var c17 := NewCoincidenceSorter();
    n := new Node(Digitizer,
      DigitizerFields(c1, c2, c3, c4, c5, c6, c7, c8, c9, c10, c11, c12, c13, c14, c15, c16, c17));
    DigitizerFresh(n, c1, c2, c3, c4, c5, c6, c7, c8, c9, c10, c11, c12, c13, c14, c15, c16, c17);
    DigitizerDefault(n, c1, c2, c3, c4, c5, c6, c7, c8, c9, c10, c11, c12, c13, c14, c15, c16, c17);
  }

  /** The fields `new Adder()` stores. */
  function AdderFields(): map<string, JsValue>
  {
    map[
      "insert" := Bool(true),
      "adder_compton" := Bool(false)]
  }

  /** The fields `new Adder()` stores conform to `Adder.input_type`. */
  lemma AdderConforms()
    ensures Conforms(Adder, AdderFields(), true)
  {
  }

  /** The fields of `new Adder()` hold no node, and so share none. */
  lemma AdderChildren()
    ensures ChildNodes(AdderFields()) == {}
    ensures Unshared(AdderFields())
  {
  }

  /** A node that holds the fields of `new Adder()`, and whose child nodes
      are built for it and are not the node itself, is what `new Adder()` builds. */
  lemma AdderDefault(n: Node)
    requires n.cls == Adder && n.fields == AdderFields()
    ensures DefaultNode(n, Adder)
    ensures ChildNodes(n.fields) == {}
  {
    AdderConforms();
    AdderChildren();
  }

  /** `new Adder()`. */
  method NewAdder() returns (n: Node)
    ensures fresh(NodeAndChildren(n)) && DefaultNode(n, Adder)
    ensures n.fields == AdderFields()
  {
    n := new Node(Adder, AdderFields());
    AdderDefault(n);
  }

  /** The fields `new Readout()` stores. */
  function ReadoutFields(): map<string, JsValue>
  {
    map[
      "insert" := Bool(true),
      "policy" := Str(""),
      "depth" := Null]
  }

  /** The keys `new Readout()` stores are the keys `Readout.input_type` describes. */
  lemma ReadoutKeys()
    ensures var f := ReadoutFields();
      forall key :: key in f <==> Corrected(Readout, key, ReadoutInputType(key)).Some?
  {
  }

  /** Each field `new Readout()` stores holds the initial value of its descriptor. */
  lemma ReadoutFieldsFit()
    ensures var f := ReadoutFields();
      forall key :: key in f ==>
        var d := Corrected(Readout, key, ReadoutInputType(key));
        d.Some? && FieldFits(Readout, key, f[key], d.value, true)
  {
  }

  /** The fields `new Readout()` stores conform to `Readout.input_type`. */
  lemma ReadoutConforms()
    ensures Conforms(Readout, ReadoutFields(), true)
  {
    forall key
      ensures InputType(Readout, key) == Corrected(Readout, key, ReadoutInputType(key))
    {
      InputTypeOfReadout(key);
    }
    ReadoutKeys();
    ReadoutFieldsFit();
  }

  /** The fields of `new Readout()` hold no node, and so share none. */
  lemma ReadoutChildren()
    ensures ChildNodes(ReadoutFields()) == {}
    ensures Unshared(ReadoutFields())
  {
  }

  /** A node that holds the fields of `new Readout()`, and whose child nodes
      are built for it and are not the node itself, is what `new Readout()` builds. */
  lemma ReadoutDefault(n: Node)
    requires n.cls == Readout && n.fields == ReadoutFields()
    ensures DefaultNode(n, Readout)
    ensures ChildNodes(n.fields) == {}
  {
    ReadoutConforms();
    ReadoutChildren();
  }

  /** `new Readout()`. */
  method NewReadout() returns (n: Node)
    ensures fresh(NodeAndChildren(n)) && DefaultNode(n, Readout)
    ensures n.fields == ReadoutFields()
  {
    n := new Node(Readout, ReadoutFields());
    ReadoutDefault(n);
  }

  /** The fields `new Blurring()` stores, given the nodes it builds for them. */
  function BlurringFields(c1: Node, c2: Node, c3: Node, c4: Node, c5: Node, c6: Node,
      c7: Node): map<string, JsValue>
  {
    map[
      "insert" := Bool(false),
      "law" := Undefined,
      "crystal_blurring" := Ref(c1),
      "local_blurring" := Arr([Ref(c2)]),
      "transfer_efficiency" := Arr([Ref(c3)]),
      "light_yield" := Arr([Ref(c4)]),
      "intrinsic_resolution_blurring" := Arr([Ref(c5)]),
      "quantum_efficiency" := Arr([Ref(c6)]),
      "spblurring" := Ref(c7)]
  }

  /** The keys `new Blurring()` stores are the keys `Blurring.input_type` describes. */
  lemma BlurringKeys(c1: Node, c2: Node, c3: Node, c4: Node, c5: Node, c6: Node, c7: Node)
    ensures var f := BlurringFields(c1, c2, c3, c4, c5, c6, c7);
      forall key :: key in f <==> Corrected(Blurring, key, BlurringInputType(key)).Some?
  {
  }

  /** Each field `new Blurring()` stores holds the initial value of its descriptor. */
  lemma BlurringFieldsFit(c1: Node, c2: Node, c3: Node, c4: Node, c5: Node, c6: Node, c7: Node)
    requires c1.cls == CrystalBlurring && c2.cls == LocalBlurring && c3.cls == TransferEfficiency &&
      c4.cls == LightYield && c5.cls == IntrinsicResolutionBlurring &&
      c6.cls == QuantumEfficiency && c7.cls == Spblurring
    ensures var f := BlurringFields(c1, c2, c3, c4, c5, c6, c7);
      forall key :: key in f ==>
        var d := Corrected(Blurring, key, BlurringInputType(key));
        d.Some? && FieldFits(Blurring, key, f[key], d.value, true)
  {
  }

  /** The fields `new Blurring()` stores conform to `Blurring.input_type`. */
  lemma BlurringConforms(c1: Node, c2: Node, c3: Node, c4: Node, c5: Node, c6: Node, c7: Node)
    requires c1.cls == CrystalBlurring && c2.cls == LocalBlurring && c3.cls == TransferEfficiency &&
      c4.cls == LightYield && c5.cls == IntrinsicResolutionBlurring &&
      c6.cls == QuantumEfficiency && c7.cls == Spblurring
    ensures Conforms(Blurring, BlurringFields(c1, c2, c3, c4, c5, c6, c7), true)
  {
    BlurringKeys(c1, c2, c3, c4, c5, c6, c7);
    BlurringFieldsFit(c1, c2, c3, c4, c5, c6, c7);
  }

  /** The nodes the fields of `new Blurring()` hold are the ones it builds for them. */
  lemma BlurringChildren(c1: Node, c2: Node, c3: Node, c4: Node, c5: Node, c6: Node, c7: Node)
    ensures forall x :: x in ChildNodes(BlurringFields(c1, c2, c3, c4, c5, c6, c7)) ==>
      x == c1 || x == c2 || x == c3 || x == c4 || x == c5 || x == c6 || x == c7
  {
  }

  /** The field of `new Blurring()` that holds each node it builds. */
  function BlurringOwner(c1: Node, c2: Node, c3: Node, c4: Node, c5: Node, c6: Node,
      c7: Node): map<Node, string>
  {
    map[c1 := "crystal_blurring", c2 := "local_blurring", c3 := "transfer_efficiency",
      c4 := "light_yield", c5 := "intrinsic_resolution_blurring", c6 := "quantum_efficiency",
      c7 := "spblurring"]
  }

  /** The fields `insert`, `law`, `crystal_blurring` of `new Blurring()` hold only nodes it gives
      to them. */
  lemma BlurringOwned1(c1: Node, c2: Node, c3: Node, c4: Node, c5: Node, c6: Node, c7: Node)
    requires c1.cls == CrystalBlurring && c2.cls == LocalBlurring && c3.cls == TransferEfficiency &&
      c4.cls == LightYield && c5.cls == IntrinsicResolutionBlurring &&
      c6.cls == QuantumEfficiency && c7.cls == Spblurring
    ensures var f := BlurringFields(c1, c2, c3, c4, c5, c6, c7);
      forall key :: key in f && key in ["insert", "law", "crystal_blurring"] ==>
        OwnedBy(f[key], key, BlurringOwner(c1, c2, c3, c4, c5, c6, c7))
  {
  }

  /** The fields `local_blurring`, `transfer_efficiency`, `light_yield` of `new Blurring()` hold
      only nodes it gives to them. */
  lemma BlurringOwned2(c1: Node, c2: Node, c3: Node, c4: Node, c5: Node, c6: Node, c7: Node)
    requires c1.cls == CrystalBlurring && c2.cls == LocalBlurring && c3.cls == TransferEfficiency &&
      c4.cls == LightYield && c5.cls == IntrinsicResolutionBlurring &&
      c6.cls == QuantumEfficiency && c7.cls == Spblurring
    ensures var f := BlurringFields(c1, c2, c3, c4, c5, c6, c7);
      forall key :: key in f && key in ["local_blurring", "transfer_efficiency", "light_yield"] ==>
        OwnedBy(f[key], key, BlurringOwner(c1, c2, c3, c4, c5, c6, c7))
  {
  }

  /** The fields `intrinsic_resolution_blurring`, `quantum_efficiency`, `spblurring` of `new
      Blurring()` hold only nodes it gives to them. */
  lemma BlurringOwned3(c1: Node, c2: Node, c3: Node, c4: Node, c5: Node, c6: Node, c7: Node)
    requires c1.cls == CrystalBlurring && c2.cls == LocalBlurring && c3.cls == TransferEfficiency &&
      c4.cls == LightYield && c5.cls == IntrinsicResolutionBlurring &&
      c6.cls == QuantumEfficiency && c7.cls == Spblurring
    ensures var f := BlurringFields(c1, c2, c3, c4, c5, c6, c7);
      forall key :: key in f && key in ["intrinsic_resolution_blurring", "quantum_efficiency",
        "spblurring"] ==>
        OwnedBy(f[key], key, BlurringOwner(c1, c2, c3, c4, c5, c6, c7))
  {
  }

  /** Each node the fields of `new Blurring()` hold is held at one place only. */
  lemma BlurringUnshared(c1: Node, c2: Node, c3: Node, c4: Node, c5: Node, c6: Node, c7: Node)
    requires c1.cls == CrystalBlurring && c2.cls == LocalBlurring && c3.cls == TransferEfficiency &&
      c4.cls == LightYield && c5.cls == IntrinsicResolutionBlurring &&
      c6.cls == QuantumEfficiency && c7.cls == Spblurring
    ensures Unshared(BlurringFields(c1, c2, c3, c4, c5, c6, c7))
  {
    BlurringOwned1(c1, c2, c3, c4, c5, c6, c7);
    BlurringOwned2(c1, c2, c3, c4, c5, c6, c7);
    BlurringOwned3(c1, c2, c3, c4, c5, c6, c7);
    UnsharedByOwner(BlurringFields(c1, c2, c3, c4, c5, c6, c7),
      BlurringOwner(c1, c2, c3, c4, c5, c6, c7));
  }

  /** A node that holds the fields of `new Blurring()`, and whose child nodes
      are built for it and are not the node itself, is what `new Blurring()` builds. */
  lemma BlurringDefault(n: Node, c1: Node, c2: Node, c3: Node, c4: Node, c5: Node, c6: Node,
      c7: Node)
    requires n.cls == Blurring && n.fields == BlurringFields(c1, c2, c3, c4, c5, c6, c7)
    requires BuiltChild(n, c1) && BuiltChild(n, c2) && BuiltChild(n, c3) && BuiltChild(n, c4) &&
      BuiltChild(n, c5) && BuiltChild(n, c6) && BuiltChild(n, c7) && c1.cls == CrystalBlurring &&
      c2.cls == LocalBlurring && c3.cls == TransferEfficiency && c4.cls == LightYield &&
      c5.cls == IntrinsicResolutionBlurring && c6.cls == QuantumEfficiency && c7.cls == Spblurring
    ensures DefaultNode(n, Blurring)
    ensures forall x :: x in ChildNodes(n.fields) ==>
      x == c1 || x == c2 || x == c3 || x == c4 || x == c5 || x == c6 || x == c7
  {
    BlurringConforms(c1, c2, c3, c4, c5, c6, c7);
    BlurringChildren(c1, c2, c3, c4, c5, c6, c7);
    BlurringUnshared(c1, c2, c3, c4, c5, c6, c7);
  }

  /** `new Blurring()` allocates the node it returns and every node its fields hold. */
  twostate lemma BlurringFresh(new n: Node, new c1: Node, new c2: Node, new c3: Node, new c4: Node,
      new c5: Node, new c6: Node, new c7: Node)
    requires fresh(n) && fresh(c1) && fresh(c2) && fresh(c3) && fresh(c4) && fresh(c5) &&
      fresh(c6) && fresh(c7)
    requires n.fields == BlurringFields(c1, c2, c3, c4, c5, c6, c7)
    ensures fresh(NodeAndChildren(n))
  {
    BlurringChildren(c1, c2, c3, c4, c5, c6, c7);
  }

  /** `new Blurring()`. */
  method NewBlurring() returns (n: Node)
    ensures fresh(NodeAndChildren(n)) && DefaultNode(n, Blurring)
    ensures
      exists c1: Node, c2: Node, c3: Node, c4: Node, c5: Node, c6: Node, c7: Node ::
        n.fields == BlurringFields(c1, c2, c3, c4, c5, c6, c7)
  {
    var c1 := NewCrystalBlurring();
    var c2 := NewLocalBlurring();
    var c3 := NewTransferEfficiency();
    var c4 := NewLightYield();
    var c5 := NewIntrinsicResolutionBlurring();
    var c6 := NewQuantumEfficiency();
    var c7 := NewSpblurring();
    n := new Node(Blurring, BlurringFields(c1, c2, c3, c4, c5, c6, c7));
    BlurringFresh(n, c1, c2, c3, c4, c5, c6, c7);
    BlurringDefault(n, c1, c2, c3, c4, c5, c6, c7);
  }

  /** The fields `new InverseSquareLaw()` stores, given the nodes it builds for them. */
  function InverseSquareLawFields(c1: Node): map<string, JsValue>
  {
    map[
      "resolution" := Null,
      "energy_of_reference" := Ref(c1)]
  }

  /** The fields `new InverseSquareLaw()` stores conform to `InverseSquareLaw.input_type`. */
  lemma InverseSquareLawConforms(c1: Node)
    requires c1.cls == Value
    ensures Conforms(InverseSquareLaw, InverseSquareLawFields(c1), true)
  {
  }

  /** The nodes the fields of `new InverseSquareLaw()` hold are the ones it builds for them. */
  lemma InverseSquareLawChildren(c1: Node)
    ensures forall x :: x in ChildNodes(InverseSquareLawFields(c1)) ==>
      x == c1
  {
  }

  /** The field of `new InverseSquareLaw()` that holds each node it builds. */
  function InverseSquareLawOwner(c1: Node): map<Node, string>
  {
    map[c1 := "energy_of_reference"]
  }

  /** Each node the fields of `new InverseSquareLaw()` hold is held at one place only. */
  lemma InverseSquareLawUnshared(c1: Node)
    requires c1.cls == Value
    ensures Unshared(InverseSquareLawFields(c1))
  {
    UnsharedByOwner(InverseSquareLawFields(c1), InverseSquareLawOwner(c1));
  }

  /** A node that holds the fields of `new InverseSquareLaw()`, and whose child nodes
      are built for it and are not the node itself, is what `new InverseSquareLaw()` builds. */
  lemma InverseSquareLawDefault(n: Node, c1: Node)
    requires n.cls == InverseSquareLaw && n.fields == InverseSquareLawFields(c1)
    requires BuiltChild(n, c1) && c1.cls == Value
    ensures DefaultNode(n, InverseSquareLaw)
    ensures forall x :: x in ChildNodes(n.fields) ==> x == c1
  {
    InverseSquareLawConforms(c1);
    InverseSquareLawChildren(c1);
    InverseSquareLawUnshared(c1);
  }

  /** `new InverseSquareLaw()` allocates the node it returns and every node its fields hold. */
  twostate lemma InverseSquareLawFresh(new n: Node, new c1: Node)
    requires fresh(n) && fresh(c1)
    requires n.fields == InverseSquareLawFields(c1)
    ensures fresh(NodeAndChildren(n))
  {
    InverseSquareLawChildren(c1);
  }

  /** `new InverseSquareLaw()`. */
  method NewInverseSquareLaw() returns (n: Node)
    ensures fresh(NodeAndChildren(n)) && DefaultNode(n, InverseSquareLaw)
    ensures exists c1: Node :: n.fields == InverseSquareLawFields(c1)
  {
    var c1 := NewValue();
    n := new Node(InverseSquareLaw, InverseSquareLawFields(c1));
    InverseSquareLawFresh(n, c1);
    InverseSquareLawDefault(n, c1);
  }

  /** The fields `new LinearLaw()` stores, given the nodes it builds for them. */
  function LinearLawFields(c1: Node, c2: Node): map<string, JsValue>
  {
    map[
      "resolution" := Null,
      "energy_of_reference" := Ref(c1),
      "slope" := Ref(c2)]
  }

  /** The keys `new LinearLaw()` stores are the keys `LinearLaw.input_type` describes. */
  lemma LinearLawKeys(c1: Node, c2: Node)
    ensures var f := LinearLawFields(c1, c2);
      forall key :: key in f <==> Corrected(LinearLaw, key, LinearLawInputType(key)).Some?
  {
  }

  /** Each field `new LinearLaw()` stores holds the initial value of its descriptor. */
  lemma LinearLawFieldsFit(c1: Node, c2: Node)
    requires c1.cls == Value && c2.cls == Value
    ensures var f := LinearLawFields(c1, c2);
      forall key :: key in f ==>
        var d := Corrected(LinearLaw, key, LinearLawInputType(key));
        d.Some? && FieldFits(LinearLaw, key, f[key], d.value, true)
  {
  }

  /** The fields `new LinearLaw()` stores conform to `LinearLaw.input_type`. */
  lemma LinearLawConforms(c1: Node, c2: Node)
    requires c1.cls == Value && c2.cls == Value
    ensures Conforms(LinearLaw, LinearLawFields(c1, c2), true)
  {
    forall key
      ensures InputType(LinearLaw, key) == Corrected(LinearLaw, key, LinearLawInputType(key))
    {
      InputTypeOfLinearLaw(key);
    }
    LinearLawKeys(c1, c2);
    LinearLawFieldsFit(c1, c2);
  }

  /** The nodes the fields of `new LinearLaw()` hold are the ones it builds for them. */
  lemma LinearLawChildren(c1: Node, c2: Node)
    ensures forall x :: x in ChildNodes(LinearLawFields(c1, c2)) ==>
      x == c1 || x == c2
  {
  }

  /** The field of `new LinearLaw()` that holds each node it builds. */
  function LinearLawOwner(c1: Node, c2: Node): map<Node, string>
  {
    map[c1 := "energy_of_reference", c2 := "slope"]
  }

  /** Each node the fields of `new LinearLaw()` hold is held at one place only. */
  lemma LinearLawUnshared(c1: Node, c2: Node)
    requires c1.cls == Value && c2.cls == Value && c1 != c2
    ensures Unshared(LinearLawFields(c1, c2))
  {
    UnsharedByOwner(LinearLawFields(c1, c2), LinearLawOwner(c1, c2));
  }

  /** A node that holds the fields of `new LinearLaw()`, and whose child nodes
      are built for it and are not the node itself, is what `new LinearLaw()` builds. */
  lemma LinearLawDefault(n: Node, c1: Node, c2: Node)
    requires n.cls == LinearLaw && n.fields == LinearLawFields(c1, c2)
    requires BuiltChild(n, c1) && BuiltChild(n, c2) && c1.cls == Value && c2.cls == Value &&
      c1 != c2
    ensures DefaultNode(n, LinearLaw)
    ensures forall x :: x in ChildNodes(n.fields) ==> x == c1 || x == c2
  {
    LinearLawConforms(c1, c2);
    LinearLawChildren(c1, c2);
    LinearLawUnshared(c1, c2);
  }

  /** `new LinearLaw()` allocates the node it returns and every node its fields hold. */
  twostate lemma LinearLawFresh(new n: Node, new c1: Node, new c2: Node)
    requires fresh(n) && fresh(c1) && fresh(c2)
    requires n.fields == LinearLawFields(c1, c2)
    ensures fresh(NodeAndChildren(n))
  {
    LinearLawChildren(c1, c2);
  }

  /** `new LinearLaw()`. */
  method NewLinearLaw() returns (n: Node)
    ensures fresh(NodeAndChildren(n)) && DefaultNode(n, LinearLaw)
    ensures exists c1: Node, c2: Node :: n.fields == LinearLawFields(c1, c2)
  {
    var c1 := NewValue();
    var c2 := NewValue();
    n := new Node(LinearLaw, LinearLawFields(c1, c2));
    LinearLawFresh(n, c1, c2);
    LinearLawDefault(n, c1, c2);
  }

  /** The fields `new CrystalBlurring()` stores, given the nodes it builds for them. */
  function CrystalBlurringFields(c1: Node): map<string, JsValue>
  {
    map[
      "insert" := Bool(false),
      "crystal_resolution_min" := Null,
      "crystal_resolution_max" := Null,
      "crystal_qe" := Null,
      "crystal_energy_of_reference" := Ref(c1)]
  }

  /** The keys `new CrystalBlurring()` stores are the keys `CrystalBlurring.input_type` describes.
      */
  lemma CrystalBlurringKeys(c1: Node)
    ensures var f := CrystalBlurringFields(c1);
      forall key :: key in f <==> Corrected(CrystalBlurring, key,
          CrystalBlurringInputType(key)).Some?
  {
  }

  /** Each field `new CrystalBlurring()` stores holds the initial value of its descriptor. */
  lemma CrystalBlurringFieldsFit(c1: Node)
    requires c1.cls == Value
    ensures var f := CrystalBlurringFields(c1);
      forall key :: key in f ==>
        var d := Corrected(CrystalBlurring, key, CrystalBlurringInputType(key));
        d.Some? && FieldFits(CrystalBlurring, key, f[key], d.value, true)
  {
  }

  /** The fields `new CrystalBlurring()` stores conform to `CrystalBlurring.input_type`. */
  lemma CrystalBlurringConforms(c1: Node)
    requires c1.cls == Value
    ensures Conforms(CrystalBlurring, CrystalBlurringFields(c1), true)
  {
    forall key
      ensures InputType(CrystalBlurring, key) ==
        Corrected(CrystalBlurring, key, CrystalBlurringInputType(key))
    {
      InputTypeOfCrystalBlurring(key);
    }
    CrystalBlurringKeys(c1);
    CrystalBlurringFieldsFit(c1);
  }

  /** The nodes the fields of `new CrystalBlurring()` hold are the ones it builds for them. */
  lemma CrystalBlurringChildren(c1: Node)
    ensures forall x :: x in ChildNodes(CrystalBlurringFields(c1)) ==>
      x == c1
  {
  }

  /** The field of `new CrystalBlurring()` that holds each node it builds. */
  function CrystalBlurringOwner(c1: Node): map<Node, string>
  {
    map[c1 := "crystal_energy_of_reference"]
  }

  /** The fields `insert`, `crystal_resolution_min`, `crystal_resolution_max` of `new
      CrystalBlurring()` hold only nodes it gives to them. */
  lemma CrystalBlurringOwned1(c1: Node)
    requires c1.cls == Value
    ensures var f := CrystalBlurringFields(c1);
      forall key :: key in f && key in ["insert", "crystal_resolution_min",
        "crystal_resolution_max"] ==>
        OwnedBy(f[key], key, CrystalBlurringOwner(c1))
  {
  }

  /** The fields `crystal_qe`, `crystal_energy_of_reference` of `new CrystalBlurring()` hold only
      nodes it gives to them. */
  lemma CrystalBlurringOwned2(c1: Node)
    requires c1.cls == Value
    ensures var f := CrystalBlurringFields(c1);
      forall key :: key in f && key in ["crystal_qe", "crystal_energy_of_reference"] ==>
        OwnedBy(f[key], key, CrystalBlurringOwner(c1))
  {
  }

  /** Each node the fields of `new CrystalBlurring()` hold is held at one place only. */
  lemma CrystalBlurringUnshared(c1: Node)
    requires c1.cls == Value
    ensures Unshared(CrystalBlurringFields(c1))
  {
    CrystalBlurringOwned1(c1);
    CrystalBlurringOwned2(c1);
    UnsharedByOwner(CrystalBlurringFields(c1), CrystalBlurringOwner(c1));
  }

  /** A node that holds the fields of `new CrystalBlurring()`, and whose child nodes
      are built for it and are not the node itself, is what `new CrystalBlurring()` builds. */
  lemma CrystalBlurringDefault(n: Node, c1: Node)
    requires n.cls == CrystalBlurring && n.fields == CrystalBlurringFields(c1)
    requires BuiltChild(n, c1) && c1.cls == Value
    ensures DefaultNode(n, CrystalBlurring)
    ensures forall x :: x in ChildNodes(n.fields) ==> x == c1
  {
    CrystalBlurringConforms(c1);
    CrystalBlurringChildren(c1);
    CrystalBlurringUnshared(c1);
  }

  /** `new CrystalBlurring()` allocates the node it returns and every node its fields hold. */
  twostate lemma CrystalBlurringFresh(new n: Node, new c1: Node)
    requires fresh(n) && fresh(c1)
    requires n.fields == CrystalBlurringFields(c1)
    ensures fresh(NodeAndChildren(n))
  {
    CrystalBlurringChildren(c1);
  }

  /** `new CrystalBlurring()`. */
  method NewCrystalBlurring() returns (n: Node)
    ensures fresh(NodeAndChildren(n)) && DefaultNode(n, CrystalBlurring)
    ensures exists c1: Node :: n.fields == CrystalBlurringFields(c1)
  {
    var c1 := NewValue();
    n := new Node(CrystalBlurring, CrystalBlurringFields(c1));
    CrystalBlurringFresh(n, c1);
    CrystalBlurringDefault(n, c1);
  }

  /** The fields `new LocalBlurring()` stores, given the nodes it builds for them. */
  function LocalBlurringFields(c1: Node): map<string, JsValue>
  {
    map[
      "insert" := Bool(false),
      "volume" := Str(""),
      "resolution" := Null,
      "energy_of_reference" := Ref(c1)]
  }

  /** The keys `new LocalBlurring()` stores are the keys `LocalBlurring.input_type` describes. */
  lemma LocalBlurringKeys(c1: Node)
    ensures var f := LocalBlurringFields(c1);
      forall key :: key in f <==> Corrected(LocalBlurring, key, LocalBlurringInputType(key)).Some?
  {
  }

  /** Each field `new LocalBlurring()` stores holds the initial value of its descriptor. */
  lemma LocalBlurringFieldsFit(c1: Node)
    requires c1.cls == Value
    ensures var f := LocalBlurringFields(c1);
      forall key :: key in f ==>
        var d := Corrected(LocalBlurring, key, LocalBlurringInputType(key));
        d.Some? && FieldFits(LocalBlurring, key, f[key], d.value, true)
  {
  }

  /** The fields `new LocalBlurring()` stores conform to `LocalBlurring.input_type`. */
  lemma LocalBlurringConforms(c1: Node)
    requires c1.cls == Value
    ensures Conforms(LocalBlurring, LocalBlurringFields(c1), true)
  {
    forall key
      ensures InputType(LocalBlurring, key) ==
        Corrected(LocalBlurring, key, LocalBlurringInputType(key))
    {
      InputTypeOfLocalBlurring(key);
    }
    LocalBlurringKeys(c1);
    LocalBlurringFieldsFit(c1);
  }

  /** The nodes the fields of `new LocalBlurring()` hold are the ones it builds for them. */
  lemma LocalBlurringChildren(c1: Node)
    ensures forall x :: x in ChildNodes(LocalBlurringFields(c1)) ==>
      x == c1
  {
  }

  /** The field of `new LocalBlurring()` that holds each node it builds. */
  function LocalBlurringOwner(c1: Node): map<Node, string>
  {
    map[c1 := "energy_of_reference"]
  }

  /** Each node the fields of `new LocalBlurring()` hold is held at one place only. */
  lemma LocalBlurringUnshared(c1: Node)
    requires c1.cls == Value
    ensures Unshared(LocalBlurringFields(c1))
  {
    UnsharedByOwner(LocalBlurringFields(c1), LocalBlurringOwner(c1));
  }

  /** A node that holds the fields of `new LocalBlurring()`, and whose child nodes
      are built for it and are not the node itself, is what `new LocalBlurring()` builds. */
  lemma LocalBlurringDefault(n: Node, c1: Node)
    requires n.cls == LocalBlurring && n.fields == LocalBlurringFields(c1)
    requires BuiltChild(n, c1) && c1.cls == Value
    ensures DefaultNode(n, LocalBlurring)
    ensures forall x :: x in ChildNodes(n.fields) ==> x == c1
  {
    LocalBlurringConforms(c1);
    LocalBlurringChildren(c1);
    LocalBlurringUnshared(c1);
  }

  /** `new LocalBlurring()` allocates the node it returns and every node its fields hold. */
  twostate lemma LocalBlurringFresh(new n: Node, new c1: Node)
    requires fresh(n) && fresh(c1)
    requires n.fields == LocalBlurringFields(c1)
    ensures fresh(NodeAndChildren(n))
  {
    LocalBlurringChildren(c1);
  }

  /** `new LocalBlurring()`. */
  method NewLocalBlurring() returns (n: Node)
    ensures fresh(NodeAndChildren(n)) && DefaultNode(n, LocalBlurring)
    ensures exists c1: Node :: n.fields == LocalBlurringFields(c1)
  {
    var c1 := NewValue();
    n := new Node(LocalBlurring, LocalBlurringFields(c1));
    LocalBlurringFresh(n, c1);
    LocalBlurringDefault(n, c1);
  }

  /** The fields `new TransferEfficiency()` stores. */
  function TransferEfficiencyFields(): map<string, JsValue>
  {
    map[
      "insert" := Bool(false),
      "volume" := Str(""),
      "tecoef" := Null]
  }

  /** The keys `new TransferEfficiency()` stores are the keys `TransferEfficiency.input_type`
      describes. */
  lemma TransferEfficiencyKeys()
    ensures var f := TransferEfficiencyFields();
      forall key :: key in f <==> Corrected(TransferEfficiency, key,
          TransferEfficiencyInputType(key)).Some?
  {
  }

  /** Each field `new TransferEfficiency()` stores holds the initial value of its descriptor. */
  lemma TransferEfficiencyFieldsFit()
    ensures var f := TransferEfficiencyFields();
      forall key :: key in f ==>
        var d := Corrected(TransferEfficiency, key, TransferEfficiencyInputType(key));
        d.Some? && FieldFits(TransferEfficiency, key, f[key], d.value, true)
  {
  }

  /** The fields `new TransferEfficiency()` stores conform to `TransferEfficiency.input_type`. */
  lemma TransferEfficiencyConforms()
    ensures Conforms(TransferEfficiency, TransferEfficiencyFields(), true)
  {
    forall key
      ensures InputType(TransferEfficiency, key) ==
        Corrected(TransferEfficiency, key, TransferEfficiencyInputType(key))
    {
      InputTypeOfTransferEfficiency(key);
    }
    TransferEfficiencyKeys();
    TransferEfficiencyFieldsFit();
  }

  /** The fields of `new TransferEfficiency()` hold no node, and so share none. */
  lemma TransferEfficiencyChildren()
    ensures ChildNodes(TransferEfficiencyFields()) == {}
    ensures Unshared(TransferEfficiencyFields())
  {
  }

  /** A node that holds the fields of `new TransferEfficiency()`, and whose child nodes
      are built for it and are not the node itself, is what `new TransferEfficiency()` builds. */
  lemma TransferEfficiencyDefault(n: Node)
    requires n.cls == TransferEfficiency && n.fields == TransferEfficiencyFields()
    ensures DefaultNode(n, TransferEfficiency)
    ensures ChildNodes(n.fields) == {}
  {
    TransferEfficiencyConforms();
    TransferEfficiencyChildren();
  }

  /** `new TransferEfficiency()`. */
  method NewTransferEfficiency() returns (n: Node)
    ensures fresh(NodeAndChildren(n)) && DefaultNode(n, TransferEfficiency)
    ensures n.fields == TransferEfficiencyFields()
  {
    n := new Node(TransferEfficiency, TransferEfficiencyFields());
    TransferEfficiencyDefault(n);
  }

  /** The fields `new LightYield()` stores. */
  function LightYieldFields(): map<string, JsValue>
  {
    map[
      "insert" := Bool(false),
      "volume" := Str(""),
      "light_output" := Null]
  }

  /** The keys `new LightYield()` stores are the keys `LightYield.input_type` describes. */
  lemma LightYieldKeys()
    ensures var f := LightYieldFields();
      forall key :: key in f <==> Corrected(LightYield, key, LightYieldInputType(key)).Some?
  {
  }

  /** Each field `new LightYield()` stores holds the initial value of its descriptor. */
  lemma LightYieldFieldsFit()
    ensures var f := LightYieldFields();
      forall key :: key in f ==>
        var d := Corrected(LightYield, key, LightYieldInputType(key));
        d.Some? && FieldFits(LightYield, key, f[key], d.value, true)
  {
  }

  /** The fields `new LightYield()` stores conform to `LightYield.input_type`. */
  lemma LightYieldConforms()
    ensures Conforms(LightYield, LightYieldFields(), true)
  {
    forall key
      ensures InputType(LightYield, key) == Corrected(LightYield, key, LightYieldInputType(key))
    {
      InputTypeOfLightYield(key);
    }
    LightYieldKeys();
    LightYieldFieldsFit();
  }

  /** The fields of `new LightYield()` hold no node, and so share none. */
  lemma LightYieldChildren()
    ensures ChildNodes(LightYieldFields()) == {}
    ensures Unshared(LightYieldFields())
  {
  }

  /** A node that holds the fields of `new LightYield()`, and whose child nodes
      are built for it and are not the node itself, is what `new LightYield()` builds. */
  lemma LightYieldDefault(n: Node)
    requires n.cls == LightYield && n.fields == LightYieldFields()
    ensures DefaultNode(n, LightYield)
    ensures ChildNodes(n.fields) == {}
  {
    LightYieldConforms();
    LightYieldChildren();
  }

  /** `new LightYield()`. */
  method NewLightYield() returns (n: Node)
    ensures fresh(NodeAndChildren(n)) && DefaultNode(n, LightYield)
    ensures n.fields == LightYieldFields()
  {
    n := new Node(LightYield, LightYieldFields());
    LightYieldDefault(n);
  }

  /** The fields `new IntrinsicResolutionBlurring()` stores, given the nodes it builds for them. */
  function IntrinsicResolutionBlurringFields(c1: Node): map<string, JsValue>
  {
    map[
      "insert" := Bool(false),
      "volume" := Str(""),
      "intrinsic_resolution" := Null,
      "energy_of_reference" := Ref(c1)]
  }

  /** The keys `new IntrinsicResolutionBlurring()` stores are the keys
      `IntrinsicResolutionBlurring.input_type` describes. */
  lemma IntrinsicResolutionBlurringKeys(c1: Node)
    ensures var f := IntrinsicResolutionBlurringFields(c1);
      forall key :: key in f <==> Corrected(IntrinsicResolutionBlurring, key,
          IntrinsicResolutionBlurringInputType(key)).Some?
  {
  }

  /** Each field `new IntrinsicResolutionBlurring()` stores holds the initial value of its
      descriptor. */
  lemma IntrinsicResolutionBlurringFieldsFit(c1: Node)
    requires c1.cls == Value
    ensures var f := IntrinsicResolutionBlurringFields(c1);
      forall key :: key in f ==>
        var d := Corrected(IntrinsicResolutionBlurring, key,
            IntrinsicResolutionBlurringInputType(key));
        d.Some? && FieldFits(IntrinsicResolutionBlurring, key, f[key], d.value, true)
  {
  }

  /** The fields `new IntrinsicResolutionBlurring()` stores conform to
      `IntrinsicResolutionBlurring.input_type`. */
  lemma IntrinsicResolutionBlurringConforms(c1: Node)
    requires c1.cls == Value
    ensures Conforms(IntrinsicResolutionBlurring, IntrinsicResolutionBlurringFields(c1), true)
  {
    forall key
      ensures InputType(IntrinsicResolutionBlurring, key) ==
        Corrected(IntrinsicResolutionBlurring, key, IntrinsicResolutionBlurringInputType(key))
    {
      InputTypeOfIntrinsicResolutionBlurring(key);
    }
    IntrinsicResolutionBlurringKeys(c1);
    IntrinsicResolutionBlurringFieldsFit(c1);
  }

  /** The nodes the fields of `new IntrinsicResolutionBlurring()` hold are the ones it builds for
      them. */
  lemma IntrinsicResolutionBlurringChildren(c1: Node)
    ensures forall x :: x in ChildNodes(IntrinsicResolutionBlurringFields(c1)) ==>
      x == c1
  {
  }

  /** The field of `new IntrinsicResolutionBlurring()` that holds each node it builds. */
  function IntrinsicResolutionBlurringOwner(c1: Node): map<Node, string>
  {
    map[c1 := "energy_of_reference"]
  }

  /** Each node the fields of `new IntrinsicResolutionBlurring()` hold is held at one place only. */
  lemma IntrinsicResolutionBlurringUnshared(c1: Node)
    requires c1.cls == Value
    ensures Unshared(IntrinsicResolutionBlurringFields(c1))
  {
    UnsharedByOwner(IntrinsicResolutionBlurringFields(c1), IntrinsicResolutionBlurringOwner(c1));
  }

  /** A node that holds the fields of `new IntrinsicResolutionBlurring()`, and whose child nodes
      are built for it and are not the node itself, is what
      `new IntrinsicResolutionBlurring()` builds. */
  lemma IntrinsicResolutionBlurringDefault(n: Node, c1: Node)
    requires n.cls == IntrinsicResolutionBlurring &&
      n.fields == IntrinsicResolutionBlurringFields(c1)
    requires BuiltChild(n, c1) && c1.cls == Value
    ensures DefaultNode(n, IntrinsicResolutionBlurring)
    ensures forall x :: x in ChildNodes(n.fields) ==> x == c1
  {
    IntrinsicResolutionBlurringConforms(c1);
    IntrinsicResolutionBlurringChildren(c1);
    IntrinsicResolutionBlurringUnshared(c1);
  }

  /** `new IntrinsicResolutionBlurring()` allocates the node it returns and every node its fields hold. */
  twostate lemma IntrinsicResolutionBlurringFresh(new n: Node, new c1: Node)
    requires fresh(n) && fresh(c1)
    requires n.fields == IntrinsicResolutionBlurringFields(c1)
    ensures fresh(NodeAndChildren(n))
  {
    IntrinsicResolutionBlurringChildren(c1);
  }

  /** `new IntrinsicResolutionBlurring()`. */
  method NewIntrinsicResolutionBlurring() returns (n: Node)
    ensures fresh(NodeAndChildren(n)) && DefaultNode(n, IntrinsicResolutionBlurring)
    ensures exists c1: Node :: n.fields == IntrinsicResolutionBlurringFields(c1)
  {
    var c1 := NewValue();
    n := new Node(IntrinsicResolutionBlurring, IntrinsicResolutionBlurringFields(c1));
    IntrinsicResolutionBlurringFresh(n, c1);
    IntrinsicResolutionBlurringDefault(n, c1);
  }

  /** The fields `new QuantumEfficiency()` stores. */
  function QuantumEfficiencyFields(): map<string, JsValue>
  {
    map[
      "insert" := Bool(false),
      "volume" := Str(""),
      "unique_qe" := Undefined]
  }

  /** The keys `new QuantumEfficiency()` stores are the keys `QuantumEfficiency.input_type`
      describes. */
  lemma QuantumEfficiencyKeys()
    ensures var f := QuantumEfficiencyFields();
      forall key :: key in f <==> Corrected(QuantumEfficiency, key,
          QuantumEfficiencyInputType(key)).Some?
  {
  }

  /** Each field `new QuantumEfficiency()` stores holds the initial value of its descriptor. */
  lemma QuantumEfficiencyFieldsFit()
    ensures var f := QuantumEfficiencyFields();
      forall key :: key in f ==>
        var d := Corrected(QuantumEfficiency, key, QuantumEfficiencyInputType(key));
        d.Some? && FieldFits(QuantumEfficiency, key, f[key], d.value, true)
  {
  }

  /** The fields `new QuantumEfficiency()` stores conform to `QuantumEfficiency.input_type`. */
  lemma QuantumEfficiencyConforms()
    ensures Conforms(QuantumEfficiency, QuantumEfficiencyFields(), true)
  {
    forall key
      ensures InputType(QuantumEfficiency, key) ==
        Corrected(QuantumEfficiency, key, QuantumEfficiencyInputType(key))
    {
      InputTypeOfQuantumEfficiency(key);
    }
    QuantumEfficiencyKeys();
    QuantumEfficiencyFieldsFit();
  }

  /** The fields of `new QuantumEfficiency()` hold no node, and so share none. */
  lemma QuantumEfficiencyChildren()
    ensures ChildNodes(QuantumEfficiencyFields()) == {}
    ensures Unshared(QuantumEfficiencyFields())
  {
  }

  /** A node that holds the fields of `new QuantumEfficiency()`, and whose child nodes
      are built for it and are not the node itself, is what `new QuantumEfficiency()` builds. */
  lemma QuantumEfficiencyDefault(n: Node)
    requires n.cls == QuantumEfficiency && n.fields == QuantumEfficiencyFields()
    ensures DefaultNode(n, QuantumEfficiency)
    ensures ChildNodes(n.fields) == {}
  {
    QuantumEfficiencyConforms();
    QuantumEfficiencyChildren();
  }

  /** `new QuantumEfficiency()`. */
  method NewQuantumEfficiency() returns (n: Node)
    ensures fresh(NodeAndChildren(n)) && DefaultNode(n, QuantumEfficiency)
    ensures n.fields == QuantumEfficiencyFields()
  {
    n := new Node(QuantumEfficiency, QuantumEfficiencyFields());
    QuantumEfficiencyDefault(n);
  }

  /** The fields `new Spblurring()` stores, given the nodes it builds for them. */
  function SpblurringFields(c1: Node): map<string, JsValue>
  {
    map[
      "insert" := Bool(false),
      "spresolution" := Ref(c1),
      "verbose" := Null]
  }

  /** The keys `new Spblurring()` stores are the keys `Spblurring.input_type` describes. */
  lemma SpblurringKeys(c1: Node)
    ensures var f := SpblurringFields(c1);
      forall key :: key in f <==> Corrected(Spblurring, key, SpblurringInputType(key)).Some?
  {
  }

  /** Each field `new Spblurring()` stores holds the initial value of its descriptor. */
  lemma SpblurringFieldsFit(c1: Node)
    requires c1.cls == Value
    ensures var f := SpblurringFields(c1);
      forall key :: key in f ==>
        var d := Corrected(Spblurring, key, SpblurringInputType(key));
        d.Some? && FieldFits(Spblurring, key, f[key], d.value, true)
  {
  }

  /** The fields `new Spblurring()` stores conform to `Spblurring.input_type`. */
  lemma SpblurringConforms(c1: Node)
    requires c1.cls == Value
    ensures Conforms(Spblurring, SpblurringFields(c1), true)
  {
    forall key
      ensures InputType(Spblurring, key) == Corrected(Spblurring, key, SpblurringInputType(key))
    {
      InputTypeOfSpblurring(key);
    }
    SpblurringKeys(c1);
    SpblurringFieldsFit(c1);
  }

  /** The nodes the fields of `new Spblurring()` hold are the ones it builds for them. */
  lemma SpblurringChildren(c1: Node)
    ensures forall x :: x in ChildNodes(SpblurringFields(c1)) ==>
      x == c1
  {
  }

  /** The field of `new Spblurring()` that holds each node it builds. */
  function SpblurringOwner(c1: Node): map<Node, string>
  {
    map[c1 := "spresolution"]
  }

  /** Each node the fields of `new Spblurring()` hold is held at one place only. */
  lemma SpblurringUnshared(c1: Node)
    requires c1.cls == Value
    ensures Unshared(SpblurringFields(c1))
  {
    UnsharedByOwner(SpblurringFields(c1), SpblurringOwner(c1));
  }

  /** A node that holds the fields of `new Spblurring()`, and whose child nodes
      are built for it and are not the node itself, is what `new Spblurring()` builds. */
  lemma SpblurringDefault(n: Node, c1: Node)
    requires n.cls == Spblurring && n.fields == SpblurringFields(c1)
    requires BuiltChild(n, c1) && c1.cls == Value
    ensures DefaultNode(n, Spblurring)
    ensures forall x :: x in ChildNodes(n.fields) ==> x == c1
  {
    SpblurringConforms(c1);
    SpblurringChildren(c1);
    SpblurringUnshared(c1);
  }

  /** `new Spblurring()` allocates the node it returns and every node its fields hold. */
  twostate lemma SpblurringFresh(new n: Node, new c1: Node)
    requires fresh(n) && fresh(c1)
    requires n.fields == SpblurringFields(c1)
    ensures fresh(NodeAndChildren(n))
  {
    SpblurringChildren(c1);
  }

  /** `new Spblurring()`. */
  method NewSpblurring() returns (n: Node)
    ensures fresh(NodeAndChildren(n)) && DefaultNode(n, Spblurring)
    ensures exists c1: Node :: n.fields == SpblurringFields(c1)
  {
    var c1 := NewValue();
    n := new Node(Spblurring, SpblurringFields(c1));
    SpblurringFresh(n, c1);
    SpblurringDefault(n, c1);
  }

  /** The fields `new Calibration()` stores. */
  function CalibrationFields(): map<string, JsValue>
  {
    map[
      "insert" := Bool(false),
      "value" := Null]
  }

  /** The fields `new Calibration()` stores conform to `Calibration.input_type`. */
  lemma CalibrationConforms()
    ensures Conforms(Calibration, CalibrationFields(), true)
  {
  }

  /** The fields of `new Calibration()` hold no node, and so share none. */
  lemma CalibrationChildren()
    ensures ChildNodes(CalibrationFields()) == {}
    ensures Unshared(CalibrationFields())
  {
  }

  /** A node that holds the fields of `new Calibration()`, and whose child nodes
      are built for it and are not the node itself, is what `new Calibration()` builds. */
  lemma CalibrationDefault(n: Node)
    requires n.cls == Calibration && n.fields == CalibrationFields()
    ensures DefaultNode(n, Calibration)
    ensures ChildNodes(n.fields) == {}
  {
    CalibrationConforms();
    CalibrationChildren();
  }

  /** `new Calibration()`. */
  method NewCalibration() returns (n: Node)
    ensures fresh(NodeAndChildren(n)) && DefaultNode(n, Calibration)
    ensures n.fields == CalibrationFields()
  {
    n := new Node(Calibration, CalibrationFields());
    CalibrationDefault(n);
  }

  /** The fields `new Crosstalk()` stores. */
  function CrosstalkFields(): map<string, JsValue>
  {
    map[
      "insert" := Bool(false),
      "crosstalk_volume" := Str(""),
      "edges_fraction" := Null,
      "corners_fraction" := Null]
  }

  /** The keys `new Crosstalk()` stores are the keys `Crosstalk.input_type` describes. */
  lemma CrosstalkKeys()
    ensures var f := CrosstalkFields();
      forall key :: key in f <==> Corrected(Crosstalk, key, CrosstalkInputType(key)).Some?
  {
  }

  /** Each field `new Crosstalk()` stores holds the initial value of its descriptor. */
  lemma CrosstalkFieldsFit()
    ensures var f := CrosstalkFields();
      forall key :: key in f ==>
        var d := Corrected(Crosstalk, key, CrosstalkInputType(key));
        d.Some? && FieldFits(Crosstalk, key, f[key], d.value, true)
  {
  }

  /** The fields `new Crosstalk()` stores conform to `Crosstalk.input_type`. */
  lemma CrosstalkConforms()
    ensures Conforms(Crosstalk, CrosstalkFields(), true)
  {
    forall key
      ensures InputType(Crosstalk, key) == Corrected(Crosstalk, key, CrosstalkInputType(key))
    {
      InputTypeOfCrosstalk(key);
    }
    CrosstalkKeys();
    CrosstalkFieldsFit();
  }

  /** The fields of `new Crosstalk()` hold no node, and so share none. */
  lemma CrosstalkChildren()
    ensures ChildNodes(CrosstalkFields()) == {}
    ensures Unshared(CrosstalkFields())
  {
  }

  /** A node that holds the fields of `new Crosstalk()`, and whose child nodes
      are built for it and are not the node itself, is what `new Crosstalk()` builds. */
  lemma CrosstalkDefault(n: Node)
    requires n.cls == Crosstalk && n.fields == CrosstalkFields()
    ensures DefaultNode(n, Crosstalk)
    ensures ChildNodes(n.fields) == {}
  {
    CrosstalkConforms();
    CrosstalkChildren();
  }

  /** `new Crosstalk()`. */
  method NewCrosstalk() returns (n: Node)
    ensures fresh(NodeAndChildren(n)) && DefaultNode(n, Crosstalk)
    ensures n.fields == CrosstalkFields()
  {
    n := new Node(Crosstalk, CrosstalkFields());
    CrosstalkDefault(n);
  }

  /** The fields `new Thresholder()` stores, given the nodes it builds for them. */
  function ThresholderFields(c1: Node): map<string, JsValue>
  {
    map[
      "insert" := Bool(false),
      "value" := Ref(c1)]
  }

  /** The fields `new Thresholder()` stores conform to `Thresholder.input_type`. */
  lemma ThresholderConforms(c1: Node)
    requires c1.cls == Value
    ensures Conforms(Thresholder, ThresholderFields(c1), true)
  {
  }

  /** The nodes the fields of `new Thresholder()` hold are the ones it builds for them. */
  lemma ThresholderChildren(c1: Node)
    ensures forall x :: x in ChildNodes(ThresholderFields(c1)) ==>
      x == c1
  {
  }

  /** The field of `new Thresholder()` that holds each node it builds. */
  function ThresholderOwner(c1: Node): map<Node, string>
  {
    map[c1 := "value"]
  }

  /** Each node the fields of `new Thresholder()` hold is held at one place only. */
  lemma ThresholderUnshared(c1: Node)
    requires c1.cls == Value
    ensures Unshared(ThresholderFields(c1))
  {
    UnsharedByOwner(ThresholderFields(c1), ThresholderOwner(c1));
  }

  /** A node that holds the fields of `new Thresholder()`, and whose child nodes
      are built for it and are not the node itself, is what `new Thresholder()` builds. */
  lemma ThresholderDefault(n: Node, c1: Node)
    requires n.cls == Thresholder && n.fields == ThresholderFields(c1)
    requires BuiltChild(n, c1) && c1.cls == Value
    ensures DefaultNode(n, Thresholder)
    ensures forall x :: x in ChildNodes(n.fields) ==> x == c1
  {
    ThresholderConforms(c1);
    ThresholderChildren(c1);
    ThresholderUnshared(c1);
  }

  /** `new Thresholder()` allocates the node it returns and every node its fields hold. */
  twostate lemma ThresholderFresh(new n: Node, new c1: Node)
    requires fresh(n) && fresh(c1)
    requires n.fields == ThresholderFields(c1)
    ensures fresh(NodeAndChildren(n))
  {
    ThresholderChildren(c1);
  }

  /** `new Thresholder()`. */
  method NewThresholder() returns (n: Node)
    ensures fresh(NodeAndChildren(n)) && DefaultNode(n, Thresholder)
    ensures exists c1: Node :: n.fields == ThresholderFields(c1)
  {
    var c1 := NewValue();
    n := new Node(Thresholder, ThresholderFields(c1));
    ThresholderFresh(n, c1);
    ThresholderDefault(n, c1);
  }

  /** The fields `new Upholder()` stores, given the nodes it builds for them. */
  function UpholderFields(c1: Node): map<string, JsValue>
  {
    map[
      "insert" := Bool(false),
      "value" := Ref(c1)]
  }

  /** The fields `new Upholder()` stores conform to `Upholder.input_type`. */
  lemma UpholderConforms(c1: Node)
    requires c1.cls == Value
    ensures Conforms(Upholder, UpholderFields(c1), true)
  {
  }

  /** The nodes the fields of `new Upholder()` hold are the ones it builds for them. */
  lemma UpholderChildren(c1: Node)
    ensures forall x :: x in ChildNodes(UpholderFields(c1)) ==>
      x == c1
  {
  }

  /** The field of `new Upholder()` that holds each node it builds. */
  function UpholderOwner(c1: Node): map<Node, string>
  {
    map[c1 := "value"]
  }

  /** Each node the fields of `new Upholder()` hold is held at one place only. */
  lemma UpholderUnshared(c1: Node)
    requires c1.cls == Value
    ensures Unshared(UpholderFields(c1))
  {
    UnsharedByOwner(UpholderFields(c1), UpholderOwner(c1));
  }

  /** A node that holds the fields of `new Upholder()`, and whose child nodes
      are built for it and are not the node itself, is what `new Upholder()` builds. */
  lemma UpholderDefault(n: Node, c1: Node)
    requires n.cls == Upholder && n.fields == UpholderFields(c1)
    requires BuiltChild(n, c1) && c1.cls == Value
    ensures DefaultNode(n, Upholder)
    ensures forall x :: x in ChildNodes(n.fields) ==> x == c1
  {
    UpholderConforms(c1);
    UpholderChildren(c1);
    UpholderUnshared(c1);
  }

  /** `new Upholder()` allocates the node it returns and every node its fields hold. */
  twostate lemma UpholderFresh(new n: Node, new c1: Node)
    requires fresh(n) && fresh(c1)
    requires n.fields == UpholderFields(c1)
    ensures fresh(NodeAndChildren(n))
  {
    UpholderChildren(c1);
  }

  /** `new Upholder()`. */
  method NewUpholder() returns (n: Node)
    ensures fresh(NodeAndChildren(n)) && DefaultNode(n, Upholder)
    ensures exists c1: Node :: n.fields == UpholderFields(c1)
  {
    var c1 := NewValue();
    n := new Node(Upholder, UpholderFields(c1));
    UpholderFresh(n, c1);
    UpholderDefault(n, c1);
  }

  /** The fields `new Window()` stores, given the nodes it builds for them. */
  function WindowFields(c1: Node, c2: Node): map<string, JsValue>
  {
    map[
      "insert" := Bool(false),
      "input_name" := Str(""),
      "thresholder" := Ref(c1),
      "uphold" := Ref(c2)]
  }

  /** The keys `new Window()` stores are the keys `Window.input_type` describes. */
  lemma WindowKeys(c1: Node, c2: Node)
    ensures var f := WindowFields(c1, c2);
      forall key :: key in f <==> Corrected(Window, key, WindowInputType(key)).Some?
  {
  }

  /** Each field `new Window()` stores holds the initial value of its descriptor. */
  lemma WindowFieldsFit(c1: Node, c2: Node)
    requires c1.cls == Thresholder && c2.cls == Upholder
    ensures var f := WindowFields(c1, c2);
      forall key :: key in f ==>
        var d := Corrected(Window, key, WindowInputType(key));
        d.Some? && FieldFits(Window, key, f[key], d.value, true)
  {
  }

  /** The fields `new Window()` stores conform to `Window.input_type`. */
  lemma WindowConforms(c1: Node, c2: Node)
    requires c1.cls == Thresholder && c2.cls == Upholder
    ensures Conforms(Window, WindowFields(c1, c2), true)
  {
    forall key
      ensures InputType(Window, key) == Corrected(Window, key, WindowInputType(key))
    {
      InputTypeOfWindow(key);
    }
    WindowKeys(c1, c2);
    WindowFieldsFit(c1, c2);
  }

  /** The nodes the fields of `new Window()` hold are the ones it builds for them. */
  lemma WindowChildren(c1: Node, c2: Node)
    ensures forall x :: x in ChildNodes(WindowFields(c1, c2)) ==>
      x == c1 || x == c2
  {
  }

  /** The field of `new Window()` that holds each node it builds. */
  function WindowOwner(c1: Node, c2: Node): map<Node, string>
  {
    map[c1 := "thresholder", c2 := "uphold"]
  }

  /** Each node the fields of `new Window()` hold is held at one place only. */
  lemma WindowUnshared(c1: Node, c2: Node)
    requires c1.cls == Thresholder && c2.cls == Upholder
    ensures Unshared(WindowFields(c1, c2))
  {
    UnsharedByOwner(WindowFields(c1, c2), WindowOwner(c1, c2));
  }

  /** A node that holds the fields of `new Window()`, and whose child nodes
      are built for it and are not the node itself, is what `new Window()` builds. */
  lemma WindowDefault(n: Node, c1: Node, c2: Node)
    requires n.cls == Window && n.fields == WindowFields(c1, c2)
    requires BuiltChild(n, c1) && BuiltChild(n, c2) && c1.cls == Thresholder && c2.cls == Upholder
    ensures DefaultNode(n, Window)
    ensures forall x :: x in ChildNodes(n.fields) ==> x == c1 || x == c2
  {
    WindowConforms(c1, c2);
    WindowChildren(c1, c2);
    WindowUnshared(c1, c2);
  }

  /** `new Window()` allocates the node it returns and every node its fields hold. */
  twostate lemma WindowFresh(new n: Node, new c1: Node, new c2: Node)
    requires fresh(n) && fresh(c1) && fresh(c2)
    requires n.fields == WindowFields(c1, c2)
    ensures fresh(NodeAndChildren(n))
  {
    WindowChildren(c1, c2);
  }

  /** `new Window()`. */
  method NewWindow() returns (n: Node)
    ensures fresh(NodeAndChildren(n)) && DefaultNode(n, Window)
    ensures exists c1: Node, c2: Node :: n.fields == WindowFields(c1, c2)
  {
    var c1 := NewThresholder();
    var c2 := NewUpholder();
    n := new Node(Window, WindowFields(c1, c2));
    WindowFresh(n, c1, c2);
    WindowDefault(n, c1, c2);
  }

  /** The fields `new SigmoidalThresholder()` stores, given the nodes it builds for them. */
  function SigmoidalThresholderFields(c1: Node): map<string, JsValue>
  {
    map[
      "insert" := Bool(false),
      "threshold" := Ref(c1),
      "threshold_alpha" := Null,
      "threshold_percent" := Null]
  }

  /** The keys `new SigmoidalThresholder()` stores are the keys `SigmoidalThresholder.input_type`
      describes. */
  lemma SigmoidalThresholderKeys(c1: Node)
    ensures var f := SigmoidalThresholderFields(c1);
      forall key :: key in f <==> Corrected(SigmoidalThresholder, key,
          SigmoidalThresholderInputType(key)).Some?
  {
  }

  /** Each field `new SigmoidalThresholder()` stores holds the initial value of its descriptor. */
  lemma SigmoidalThresholderFieldsFit(c1: Node)
    requires c1.cls == Value
    ensures var f := SigmoidalThresholderFields(c1);
      forall key :: key in f ==>
        var d := Corrected(SigmoidalThresholder, key, SigmoidalThresholderInputType(key));
        d.Some? && FieldFits(SigmoidalThresholder, key, f[key], d.value, true)
  {
  }

  /** The fields `new SigmoidalThresholder()` stores conform to `SigmoidalThresholder.input_type`.
      */
  lemma SigmoidalThresholderConforms(c1: Node)
    requires c1.cls == Value
    ensures Conforms(SigmoidalThresholder, SigmoidalThresholderFields(c1), true)
  {
    forall key
      ensures InputType(SigmoidalThresholder, key) ==
        Corrected(SigmoidalThresholder, key, SigmoidalThresholderInputType(key))
    {
      InputTypeOfSigmoidalThresholder(key);
    }
    SigmoidalThresholderKeys(c1);
    SigmoidalThresholderFieldsFit(c1);
  }

  /** The nodes the fields of `new SigmoidalThresholder()` hold are the ones it builds for them. */
  lemma SigmoidalThresholderChildren(c1: Node)
    ensures forall x :: x in ChildNodes(SigmoidalThresholderFields(c1)) ==>
      x == c1
  {
  }

  /** The field of `new SigmoidalThresholder()` that holds each node it builds. */
  function SigmoidalThresholderOwner(c1: Node): map<Node, string>
  {
    map[c1 := "threshold"]
  }

  /** Each node the fields of `new SigmoidalThresholder()` hold is held at one place only. */
  lemma SigmoidalThresholderUnshared(c1: Node)
    requires c1.cls == Value
    ensures Unshared(SigmoidalThresholderFields(c1))
  {
    UnsharedByOwner(SigmoidalThresholderFields(c1), SigmoidalThresholderOwner(c1));
  }

  /** A node that holds the fields of `new SigmoidalThresholder()`, and whose child nodes
      are built for it and are not the node itself, is what `new SigmoidalThresholder()` builds. */
  lemma SigmoidalThresholderDefault(n: Node, c1: Node)
    requires n.cls == SigmoidalThresholder && n.fields == SigmoidalThresholderFields(c1)
    requires BuiltChild(n, c1) && c1.cls == Value
    ensures DefaultNode(n, SigmoidalThresholder)
    ensures forall x :: x in ChildNodes(n.fields) ==> x == c1
  {
    SigmoidalThresholderConforms(c1);
    SigmoidalThresholderChildren(c1);
    SigmoidalThresholderUnshared(c1);
  }

  /** `new SigmoidalThresholder()` allocates the node it returns and every node its fields hold. */
  twostate lemma SigmoidalThresholderFresh(new n: Node, new c1: Node)
    requires fresh(n) && fresh(c1)
    requires n.fields == SigmoidalThresholderFields(c1)
    ensures fresh(NodeAndChildren(n))
  {
    SigmoidalThresholderChildren(c1);
  }

  /** `new SigmoidalThresholder()`. */
  method NewSigmoidalThresholder() returns (n: Node)
    ensures fresh(NodeAndChildren(n)) && DefaultNode(n, SigmoidalThresholder)
    ensures exists c1: Node :: n.fields == SigmoidalThresholderFields(c1)
  {
    var c1 := NewValue();
    n := new Node(SigmoidalThresholder, SigmoidalThresholderFields(c1));
    SigmoidalThresholderFresh(n, c1);
    SigmoidalThresholderDefault(n, c1);
  }

  /** The fields `new TimeResolution()` stores, given the nodes it builds for them. */
  function TimeResolutionFields(c1: Node): map<string, JsValue>
  {
    map[
      "insert" := Bool(false),
      "value" := Ref(c1)]
  }

  /** The fields `new TimeResolution()` stores conform to `TimeResolution.input_type`. */
  lemma TimeResolutionConforms(c1: Node)
    requires c1.cls == Value
    ensures Conforms(TimeResolution, TimeResolutionFields(c1), true)
  {
  }

  /** The nodes the fields of `new TimeResolution()` hold are the ones it builds for them. */
  lemma TimeResolutionChildren(c1: Node)
    ensures forall x :: x in ChildNodes(TimeResolutionFields(c1)) ==>
      x == c1
  {
  }

  /** The field of `new TimeResolution()` that holds each node it builds. */
  function TimeResolutionOwner(c1: Node): map<Node, string>
  {
    map[c1 := "value"]
  }

  /** Each node the fields of `new TimeResolution()` hold is held at one place only. */
  lemma TimeResolutionUnshared(c1: Node)
    requires c1.cls == Value
    ensures Unshared(TimeResolutionFields(c1))
  {
    UnsharedByOwner(TimeResolutionFields(c1), TimeResolutionOwner(c1));
  }

  /** A node that holds the fields of `new TimeResolution()`, and whose child nodes
      are built for it and are not the node itself, is what `new TimeResolution()` builds. */
  lemma TimeResolutionDefault(n: Node, c1: Node)
    requires n.cls == TimeResolution && n.fields == TimeResolutionFields(c1)
    requires BuiltChild(n, c1) && c1.cls == Value
    ensures DefaultNode(n, TimeResolution)
    ensures forall x :: x in ChildNodes(n.fields) ==> x == c1
  {
    TimeResolutionConforms(c1);
    TimeResolutionChildren(c1);
    TimeResolutionUnshared(c1);
  }

  /** `new TimeResolution()` allocates the node it returns and every node its fields hold. */
  twostate lemma TimeResolutionFresh(new n: Node, new c1: Node)
    requires fresh(n) && fresh(c1)
    requires n.fields == TimeResolutionFields(c1)
    ensures fresh(NodeAndChildren(n))
  {
    TimeResolutionChildren(c1);
  }

  /** `new TimeResolution()`. */
  method NewTimeResolution() returns (n: Node)
    ensures fresh(NodeAndChildren(n)) && DefaultNode(n, TimeResolution)
    ensures exists c1: Node :: n.fields == TimeResolutionFields(c1)
  {
    var c1 := NewValue();
    n := new Node(TimeResolution, TimeResolutionFields(c1));
    TimeResolutionFresh(n, c1);
    TimeResolutionDefault(n, c1);
  }

  /** The fields `new Noise()` stores. */
  function NoiseFields(): map<string, JsValue>
  {
    map[
      "insert" := Bool(false),
      "deltaT_distribution" := Undefined,
      "energy_distribution" := Undefined]
  }

  /** The keys `new Noise()` stores are the keys `Noise.input_type` describes. */
  lemma NoiseKeys()
    ensures var f := NoiseFields();
      forall key :: key in f <==> Corrected(Noise, key, NoiseInputType(key)).Some?
  {
  }

  /** Each field `new Noise()` stores holds the initial value of its descriptor. */
  lemma NoiseFieldsFit()
    ensures var f := NoiseFields();
      forall key :: key in f ==>
        var d := Corrected(Noise, key, NoiseInputType(key));
        d.Some? && FieldFits(Noise, key, f[key], d.value, true)
  {
  }

  /** The fields `new Noise()` stores conform to `Noise.input_type`. */
  lemma NoiseConforms()
    ensures Conforms(Noise, NoiseFields(), true)
  {
    forall key
      ensures InputType(Noise, key) == Corrected(Noise, key, NoiseInputType(key))
    {
      InputTypeOfNoise(key);
    }
    NoiseKeys();
    NoiseFieldsFit();
  }

  /** The fields of `new Noise()` hold no node, and so share none. */
  lemma NoiseChildren()
    ensures ChildNodes(NoiseFields()) == {}
    ensures Unshared(NoiseFields())
  {
  }

  /** A node that holds the fields of `new Noise()`, and whose child nodes
      are built for it and are not the node itself, is what `new Noise()` builds. */
  lemma NoiseDefault(n: Node)
    requires n.cls == Noise && n.fields == NoiseFields()
    ensures DefaultNode(n, Noise)
    ensures ChildNodes(n.fields) == {}
  {
    NoiseConforms();
    NoiseChildren();
  }

  /** `new Noise()`. */
  method NewNoise() returns (n: Node)
    ensures fresh(NodeAndChildren(n)) && DefaultNode(n, Noise)
    ensures n.fields == NoiseFields()
  {
    n := new Node(Noise, NoiseFields());
    NoiseDefault(n);
  }

  /** The fields `new LocalEfficiency()` stores. */
  function LocalEfficiencyFields(): map<string, JsValue>
  {
    map[
      "insert" := Bool(false),
      "Level1" := Undefined,
      "Level2" := Undefined]
  }

  /** The keys `new LocalEfficiency()` stores are the keys `LocalEfficiency.input_type` describes.
      */
  lemma LocalEfficiencyKeys()
    ensures var f := LocalEfficiencyFields();
      forall key :: key in f <==> Corrected(LocalEfficiency, key,
          LocalEfficiencyInputType(key)).Some?
  {
  }

  /** Each field `new LocalEfficiency()` stores holds the initial value of its descriptor. */
  lemma LocalEfficiencyFieldsFit()
    ensures var f := LocalEfficiencyFields();
      forall key :: key in f ==>
        var d := Corrected(LocalEfficiency, key, LocalEfficiencyInputType(key));
        d.Some? && FieldFits(LocalEfficiency, key, f[key], d.value, true)
  {
  }

  /** The fields `new LocalEfficiency()` stores conform to `LocalEfficiency.input_type`. */
  lemma LocalEfficiencyConforms()
    ensures Conforms(LocalEfficiency, LocalEfficiencyFields(), true)
  {
    forall key
      ensures InputType(LocalEfficiency, key) ==
        Corrected(LocalEfficiency, key, LocalEfficiencyInputType(key))
    {
      InputTypeOfLocalEfficiency(key);
    }
    LocalEfficiencyKeys();
    LocalEfficiencyFieldsFit();
  }

  /** The fields of `new LocalEfficiency()` hold no node, and so share none. */
  lemma LocalEfficiencyChildren()
    ensures ChildNodes(LocalEfficiencyFields()) == {}
    ensures Unshared(LocalEfficiencyFields())
  {
  }

  /** A node that holds the fields of `new LocalEfficiency()`, and whose child nodes
      are built for it and are not the node itself, is what `new LocalEfficiency()` builds. */
  lemma LocalEfficiencyDefault(n: Node)
    requires n.cls == LocalEfficiency && n.fields == LocalEfficiencyFields()
    ensures DefaultNode(n, LocalEfficiency)
    ensures ChildNodes(n.fields) == {}
  {
    LocalEfficiencyConforms();
    LocalEfficiencyChildren();
  }

  /** `new LocalEfficiency()`. */
  method NewLocalEfficiency() returns (n: Node)
    ensures fresh(NodeAndChildren(n)) && DefaultNode(n, LocalEfficiency)
    ensures n.fields == LocalEfficiencyFields()
  {
    n := new Node(LocalEfficiency, LocalEfficiencyFields());
    LocalEfficiencyDefault(n);
  }

  /** The fields `new Buffer()` stores, given the nodes it builds for them. */
  function BufferFields(c1: Node, c2: Node): map<string, JsValue>
  {
    map[
      "insert" := Bool(false),
      "buffer_size" := Ref(c1),
      "read_frequency" := Ref(c2),
      "mode" := Null]
  }

  /** The keys `new Buffer()` stores are the keys `Buffer.input_type` describes. */
  lemma BufferKeys(c1: Node, c2: Node)
    ensures var f := BufferFields(c1, c2);
      forall key :: key in f <==> Corrected(Buffer, key, BufferInputType(key)).Some?
  {
  }

  /** Each field `new Buffer()` stores holds the initial value of its descriptor. */
  lemma BufferFieldsFit(c1: Node, c2: Node)
    requires c1.cls == Value && c2.cls == Value
    ensures var f := BufferFields(c1, c2);
      forall key :: key in f ==>
        var d := Corrected(Buffer, key, BufferInputType(key));
        d.Some? && FieldFits(Buffer, key, f[key], d.value, true)
  {
  }

  /** The fields `new Buffer()` stores conform to `Buffer.input_type`. */
  lemma BufferConforms(c1: Node, c2: Node)
    requires c1.cls == Value && c2.cls == Value
    ensures Conforms(Buffer, BufferFields(c1, c2), true)
  {
    forall key
      ensures InputType(Buffer, key) == Corrected(Buffer, key, BufferInputType(key))
    {
      InputTypeOfBuffer(key);
    }
    BufferKeys(c1, c2);
    BufferFieldsFit(c1, c2);
  }

  /** The nodes the fields of `new Buffer()` hold are the ones it builds for them. */
  lemma BufferChildren(c1: Node, c2: Node)
    ensures forall x :: x in ChildNodes(BufferFields(c1, c2)) ==>
      x == c1 || x == c2
  {
  }

  /** The field of `new Buffer()` that holds each node it builds. */
  function BufferOwner(c1: Node, c2: Node): map<Node, string>
  {
    map[c1 := "buffer_size", c2 := "read_frequency"]
  }

  /** Each node the fields of `new Buffer()` hold is held at one place only. */
  lemma BufferUnshared(c1: Node, c2: Node)
    requires c1.cls == Value && c2.cls == Value && c1 != c2
    ensures Unshared(BufferFields(c1, c2))
  {
    UnsharedByOwner(BufferFields(c1, c2), BufferOwner(c1, c2));
  }

  /** A node that holds the fields of `new Buffer()`, and whose child nodes
      are built for it and are not the node itself, is what `new Buffer()` builds. */
  lemma BufferDefault(n: Node, c1: Node, c2: Node)
    requires n.cls == Buffer && n.fields == BufferFields(c1, c2)
    requires BuiltChild(n, c1) && BuiltChild(n, c2) && c1.cls == Value && c2.cls == Value &&
      c1 != c2
    ensures DefaultNode(n, Buffer)
    ensures forall x :: x in ChildNodes(n.fields) ==> x == c1 || x == c2
  {
    BufferConforms(c1, c2);
    BufferChildren(c1, c2);
    BufferUnshared(c1, c2);
  }

  /** `new Buffer()` allocates the node it returns and every node its fields hold. */
  twostate lemma BufferFresh(new n: Node, new c1: Node, new c2: Node)
    requires fresh(n) && fresh(c1) && fresh(c2)
    requires n.fields == BufferFields(c1, c2)
    ensures fresh(NodeAndChildren(n))
  {
    BufferChildren(c1, c2);
  }

  /** `new Buffer()`. */
  method NewBuffer() returns (n: Node)
    ensures fresh(NodeAndChildren(n)) && DefaultNode(n, Buffer)
    ensures exists c1: Node, c2: Node :: n.fields == BufferFields(c1, c2)
  {
    var c1 := NewValue();
    var c2 := NewValue();
    n := new Node(Buffer, BufferFields(c1, c2));
    BufferFresh(n, c1, c2);
    BufferDefault(n, c1, c2);
  }

  /** The fields `new Pileup()` stores, given the nodes it builds for them. */
  function PileupFields(c1: Node): map<string, JsValue>
  {
    map[
      "insert" := Bool(false),
      "depth" := Null,
      "value" := Ref(c1)]
  }

  /** The keys `new Pileup()` stores are the keys `Pileup.input_type` describes. */
  lemma PileupKeys(c1: Node)
    ensures var f := PileupFields(c1);
      forall key :: key in f <==> Corrected(Pileup, key, PileupInputType(key)).Some?
  {
  }

  /** Each field `new Pileup()` stores holds the initial value of its descriptor. */
  lemma PileupFieldsFit(c1: Node)
    requires c1.cls == Value
    ensures var f := PileupFields(c1);
      forall key :: key in f ==>
        var d := Corrected(Pileup, key, PileupInputType(key));
        d.Some? && FieldFits(Pileup, key, f[key], d.value, true)
  {
  }

  /** The fields `new Pileup()` stores conform to `Pileup.input_type`. */
  lemma PileupConforms(c1: Node)
    requires c1.cls == Value
    ensures Conforms(Pileup, PileupFields(c1), true)
  {
    forall key
      ensures InputType(Pileup, key) == Corrected(Pileup, key, PileupInputType(key))
    {
      InputTypeOfPileup(key);
    }
    PileupKeys(c1);
    PileupFieldsFit(c1);
  }

  /** The nodes the fields of `new Pileup()` hold are the ones it builds for them. */
  lemma PileupChildren(c1: Node)
    ensures forall x :: x in ChildNodes(PileupFields(c1)) ==>
      x == c1
  {
  }

  /** The field of `new Pileup()` that holds each node it builds. */
  function PileupOwner(c1: Node): map<Node, string>
  {
    map[c1 := "value"]
  }

  /** Each node the fields of `new Pileup()` hold is held at one place only. */
  lemma PileupUnshared(c1: Node)
    requires c1.cls == Value
    ensures Unshared(PileupFields(c1))
  {
    UnsharedByOwner(PileupFields(c1), PileupOwner(c1));
  }

  /** A node that holds the fields of `new Pileup()`, and whose child nodes
      are built for it and are not the node itself, is what `new Pileup()` builds. */
  lemma PileupDefault(n: Node, c1: Node)
    requires n.cls == Pileup && n.fields == PileupFields(c1)
    requires BuiltChild(n, c1) && c1.cls == Value
    ensures DefaultNode(n, Pileup)
    ensures forall x :: x in ChildNodes(n.fields) ==> x == c1
  {
    PileupConforms(c1);
    PileupChildren(c1);
    PileupUnshared(c1);
  }

  /** `new Pileup()` allocates the node it returns and every node its fields hold. */
  twostate lemma PileupFresh(new n: Node, new c1: Node)
    requires fresh(n) && fresh(c1)
    requires n.fields == PileupFields(c1)
    ensures fresh(NodeAndChildren(n))
  {
    PileupChildren(c1);
  }

  /** `new Pileup()`. */
  method NewPileup() returns (n: Node)
    ensures fresh(NodeAndChildren(n)) && DefaultNode(n, Pileup)
    ensures exists c1: Node :: n.fields == PileupFields(c1)
  {
    var c1 := NewValue();
    n := new Node(Pileup, PileupFields(c1));
    PileupFresh(n, c1);
    PileupDefault(n, c1);
  }

  /** The fields `new DeadTime()` stores, given the nodes it builds for them. */
  function DeadTimeFields(c1: Node, c2: Node): map<string, JsValue>
  {
    map[
      "insert" := Bool(false),
      "value" := Ref(c1),
      "mode" := Str(""),
      "dt_volume" := Str(""),
      "buffer_size" := Ref(c2),
      "buffer_mode" := Null]
  }

  /** The keys `new DeadTime()` stores are the keys `DeadTime.input_type` describes. */
  lemma DeadTimeKeys(c1: Node, c2: Node)
    ensures var f := DeadTimeFields(c1, c2);
      forall key :: key in f <==> Corrected(DeadTime, key, DeadTimeInputType(key)).Some?
  {
  }

  /** Each field `new DeadTime()` stores holds the initial value of its descriptor. */
  lemma DeadTimeFieldsFit(c1: Node, c2: Node)
    requires c1.cls == Value && c2.cls == Value
    ensures var f := DeadTimeFields(c1, c2);
      forall key :: key in f ==>
        var d := Corrected(DeadTime, key, DeadTimeInputType(key));
        d.Some? && FieldFits(DeadTime, key, f[key], d.value, true)
  {
  }

  /** The fields `new DeadTime()` stores conform to `DeadTime.input_type`. */
  lemma DeadTimeConforms(c1: Node, c2: Node)
    requires c1.cls == Value && c2.cls == Value
    ensures Conforms(DeadTime, DeadTimeFields(c1, c2), true)
  {
    forall key
      ensures InputType(DeadTime, key) == Corrected(DeadTime, key, DeadTimeInputType(key))
    {
      InputTypeOfDeadTime(key);
    }
    DeadTimeKeys(c1, c2);
    DeadTimeFieldsFit(c1, c2);
  }

  /** The nodes the fields of `new DeadTime()` hold are the ones it builds for them. */
  lemma DeadTimeChildren(c1: Node, c2: Node)
    ensures forall x :: x in ChildNodes(DeadTimeFields(c1, c2)) ==>
      x == c1 || x == c2
  {
  }

  /** The field of `new DeadTime()` that holds each node it builds. */
  function DeadTimeOwner(c1: Node, c2: Node): map<Node, string>
  {
    map[c1 := "value", c2 := "buffer_size"]
  }

  /** The fields `insert`, `value`, `mode` of `new DeadTime()` hold only nodes it gives to them. */
  lemma DeadTimeOwned1(c1: Node, c2: Node)
    requires c1.cls == Value && c2.cls == Value && c1 != c2
    ensures var f := DeadTimeFields(c1, c2);
      forall key :: key in f && key in ["insert", "value", "mode"] ==>
        OwnedBy(f[key], key, DeadTimeOwner(c1, c2))
  {
  }

  /** The fields `dt_volume`, `buffer_size`, `buffer_mode` of `new DeadTime()` hold only nodes it
      gives to them. */
  lemma DeadTimeOwned2(c1: Node, c2: Node)
    requires c1.cls == Value && c2.cls == Value && c1 != c2
    ensures var f := DeadTimeFields(c1, c2);
      forall key :: key in f && key in ["dt_volume", "buffer_size", "buffer_mode"] ==>
        OwnedBy(f[key], key, DeadTimeOwner(c1, c2))
  {
  }

  /** Each node the fields of `new DeadTime()` hold is held at one place only. */
  lemma DeadTimeUnshared(c1: Node, c2: Node)
    requires c1.cls == Value && c2.cls == Value && c1 != c2
    ensures Unshared(DeadTimeFields(c1, c2))
  {
    DeadTimeOwned1(c1, c2);
    DeadTimeOwned2(c1, c2);
    UnsharedByOwner(DeadTimeFields(c1, c2), DeadTimeOwner(c1, c2));
  }

  /** A node that holds the fields of `new DeadTime()`, and whose child nodes
      are built for it and are not the node itself, is what `new DeadTime()` builds. */
  lemma DeadTimeDefault(n: Node, c1: Node, c2: Node)
    requires n.cls == DeadTime && n.fields == DeadTimeFields(c1, c2)
    requires BuiltChild(n, c1) && BuiltChild(n, c2) && c1.cls == Value && c2.cls == Value &&
      c1 != c2
    ensures DefaultNode(n, DeadTime)
    ensures forall x :: x in ChildNodes(n.fields) ==> x == c1 || x == c2
  {
    DeadTimeConforms(c1, c2);
    DeadTimeChildren(c1, c2);
    DeadTimeUnshared(c1, c2);
  }

  /** `new DeadTime()` allocates the node it returns and every node its fields hold. */
  twostate lemma DeadTimeFresh(new n: Node, new c1: Node, new c2: Node)
    requires fresh(n) && fresh(c1) && fresh(c2)
    requires n.fields == DeadTimeFields(c1, c2)
    ensures fresh(NodeAndChildren(n))
  {
    DeadTimeChildren(c1, c2);
  }

  /** `new DeadTime()`. */
  method NewDeadTime() returns (n: Node)
    ensures fresh(NodeAndChildren(n)) && DefaultNode(n, DeadTime)
    ensures exists c1: Node, c2: Node :: n.fields == DeadTimeFields(c1, c2)
  {
    var c1 := NewValue();
    var c2 := NewValue();
    n := new Node(DeadTime, DeadTimeFields(c1, c2));
    DeadTimeFresh(n, c1, c2);
    DeadTimeDefault(n, c1, c2);
  }

  /** The fields `new Coincidences()` stores, given the nodes it builds for them. */
  function CoincidencesFields(c1: Node, c2: Node): map<string, JsValue>
  {
    map[
      "window" := Ref(c1),
      "min_sector_difference" := Null,
      "offset" := Ref(c2),
      "depth" := Null,
      "all_pulse_open_coinc_gate" := Bool(false),
      "multiple_policy" := Str("")]
  }

  /** The keys `new Coincidences()` stores are the keys `Coincidences.input_type` describes. */
  lemma CoincidencesKeys(c1: Node, c2: Node)
    ensures var f := CoincidencesFields(c1, c2);
      forall key :: key in f <==> Corrected(Coincidences, key, CoincidencesInputType(key)).Some?
  {
  }

  /** Each field `new Coincidences()` stores holds the initial value of its descriptor. */
  lemma CoincidencesFieldsFit(c1: Node, c2: Node)
    requires c1.cls == Value && c2.cls == Value
    ensures var f := CoincidencesFields(c1, c2);
      forall key :: key in f ==>
        var d := Corrected(Coincidences, key, CoincidencesInputType(key));
        d.Some? && FieldFits(Coincidences, key, f[key], d.value, true)
  {
  }

  /** The fields `new Coincidences()` stores conform to `Coincidences.input_type`. */
  lemma CoincidencesConforms(c1: Node, c2: Node)
    requires c1.cls == Value && c2.cls == Value
    ensures Conforms(Coincidences, CoincidencesFields(c1, c2), true)
  {
    forall key
      ensures InputType(Coincidences, key) ==
        Corrected(Coincidences, key, CoincidencesInputType(key))
    {
      InputTypeOfCoincidences(key);
    }
    CoincidencesKeys(c1, c2);
    CoincidencesFieldsFit(c1, c2);
  }

  /** The nodes the fields of `new Coincidences()` hold are the ones it builds for them. */
  lemma CoincidencesChildren(c1: Node, c2: Node)
    ensures forall x :: x in ChildNodes(CoincidencesFields(c1, c2)) ==>
      x == c1 || x == c2
  {
  }

  /** The field of `new Coincidences()` that holds each node it builds. */
  function CoincidencesOwner(c1: Node, c2: Node): map<Node, string>
  {
    map[c1 := "window", c2 := "offset"]
  }

  /** The fields `window`, `min_sector_difference`, `offset` of `new Coincidences()` hold only
      nodes it gives to them. */
  lemma CoincidencesOwned1(c1: Node, c2: Node)
    requires c1.cls == Value && c2.cls == Value && c1 != c2
    ensures var f := CoincidencesFields(c1, c2);
      forall key :: key in f && key in ["window", "min_sector_difference", "offset"] ==>
        OwnedBy(f[key], key, CoincidencesOwner(c1, c2))
  {
  }

  /** The fields `depth`, `all_pulse_open_coinc_gate`, `multiple_policy` of `new Coincidences()`
      hold only nodes it gives to them. */
  lemma CoincidencesOwned2(c1: Node, c2: Node)
    requires c1.cls == Value && c2.cls == Value && c1 != c2
    ensures var f := CoincidencesFields(c1, c2);
      forall key :: key in f && key in ["depth", "all_pulse_open_coinc_gate", "multiple_policy"] ==>
        OwnedBy(f[key], key, CoincidencesOwner(c1, c2))
  {
  }

  /** Each node the fields of `new Coincidences()` hold is held at one place only. */
  lemma CoincidencesUnshared(c1: Node, c2: Node)
    requires c1.cls == Value && c2.cls == Value && c1 != c2
    ensures Unshared(CoincidencesFields(c1, c2))
  {
    CoincidencesOwned1(c1, c2);
    CoincidencesOwned2(c1, c2);
    UnsharedByOwner(CoincidencesFields(c1, c2), CoincidencesOwner(c1, c2));
  }

  /** A node that holds the fields of `new Coincidences()`, and whose child nodes
      are built for it and are not the node itself, is what `new Coincidences()` builds. */
  lemma CoincidencesDefault(n: Node, c1: Node, c2: Node)
    requires n.cls == Coincidences && n.fields == CoincidencesFields(c1, c2)
    requires BuiltChild(n, c1) && BuiltChild(n, c2) && c1.cls == Value && c2.cls == Value &&
      c1 != c2
    ensures DefaultNode(n, Coincidences)
    ensures forall x :: x in ChildNodes(n.fields) ==> x == c1 || x == c2
  {
    CoincidencesConforms(c1, c2);
    CoincidencesChildren(c1, c2);
    CoincidencesUnshared(c1, c2);
  }

  /** `new Coincidences()` allocates the node it returns and every node its fields hold. */
  twostate lemma CoincidencesFresh(new n: Node, new c1: Node, new c2: Node)
    requires fresh(n) && fresh(c1) && fresh(c2)
    requires n.fields == CoincidencesFields(c1, c2)
    ensures fresh(NodeAndChildren(n))
  {
    CoincidencesChildren(c1, c2);
  }

  /** `new Coincidences()`. */
  method NewCoincidences() returns (n: Node)
    ensures fresh(NodeAndChildren(n)) && DefaultNode(n, Coincidences)
    ensures exists c1: Node, c2: Node :: n.fields == CoincidencesFields(c1, c2)
  {
    var c1 := NewValue();
    var c2 := NewValue();
    n := new Node(Coincidences, CoincidencesFields(c1, c2));
    CoincidencesFresh(n, c1, c2);
    CoincidencesDefault(n, c1, c2);
  }

  /** The fields `new CoincidenceSorter()` stores, given the nodes it builds for them. */
  function CoincidenceSorterFields(c1: Node): map<string, JsValue>
  {
    map[
      "insert" := Bool(false),
      "name" := Str(""),
      "input_name" := Str(""),
      "window" := Ref(c1)]
  }

  /** The keys `new CoincidenceSorter()` stores are the keys `CoincidenceSorter.input_type`
      describes. */
  lemma CoincidenceSorterKeys(c1: Node)
    ensures var f := CoincidenceSorterFields(c1);
      forall key :: key in f <==> Corrected(CoincidenceSorter, key,
          CoincidenceSorterInputType(key)).Some?
  {
  }

  /** Each field `new CoincidenceSorter()` stores holds the initial value of its descriptor. */
  lemma CoincidenceSorterFieldsFit(c1: Node)
    requires c1.cls == Value
    ensures var f := CoincidenceSorterFields(c1);
      forall key :: key in f ==>
        var d := Corrected(CoincidenceSorter, key, CoincidenceSorterInputType(key));
        d.Some? && FieldFits(CoincidenceSorter, key, f[key], d.value, true)
  {
  }

  /** The fields `new CoincidenceSorter()` stores conform to `CoincidenceSorter.input_type`. */
  lemma CoincidenceSorterConforms(c1: Node)
    requires c1.cls == Value
    ensures Conforms(CoincidenceSorter, CoincidenceSorterFields(c1), true)
  {
    forall key
      ensures InputType(CoincidenceSorter, key) ==
        Corrected(CoincidenceSorter, key, CoincidenceSorterInputType(key))
    {
      InputTypeOfCoincidenceSorter(key);
    }
    CoincidenceSorterKeys(c1);
    CoincidenceSorterFieldsFit(c1);
  }

  /** The nodes the fields of `new CoincidenceSorter()` hold are the ones it builds for them. */
  lemma CoincidenceSorterChildren(c1: Node)
    ensures forall x :: x in ChildNodes(CoincidenceSorterFields(c1)) ==>
      x == c1
  {
  }

  /** The field of `new CoincidenceSorter()` that holds each node it builds. */
  function CoincidenceSorterOwner(c1: Node): map<Node, string>
  {
    map[c1 := "window"]
  }

  /** Each node the fields of `new CoincidenceSorter()` hold is held at one place only. */
  lemma CoincidenceSorterUnshared(c1: Node)
    requires c1.cls == Value
    ensures Unshared(CoincidenceSorterFields(c1))
  {
    UnsharedByOwner(CoincidenceSorterFields(c1), CoincidenceSorterOwner(c1));
  }

  /** A node that holds the fields of `new CoincidenceSorter()`, and whose child nodes
      are built for it and are not the node itself, is what `new CoincidenceSorter()` builds. */
  lemma CoincidenceSorterDefault(n: Node, c1: Node)
    requires n.cls == CoincidenceSorter && n.fields == CoincidenceSorterFields(c1)
    requires BuiltChild(n, c1) && c1.cls == Value
    ensures DefaultNode(n, CoincidenceSorter)
    ensures forall x :: x in ChildNodes(n.fields) ==> x == c1
  {
    CoincidenceSorterConforms(c1);
    CoincidenceSorterChildren(c1);
    CoincidenceSorterUnshared(c1);
  }

  /** `new CoincidenceSorter()` allocates the node it returns and every node its fields hold. */
  twostate lemma CoincidenceSorterFresh(new n: Node, new c1: Node)
    requires fresh(n) && fresh(c1)
    requires n.fields == CoincidenceSorterFields(c1)
    ensures fresh(NodeAndChildren(n))
  {
    CoincidenceSorterChildren(c1);
  }

  /** `new CoincidenceSorter()`. */
  method NewCoincidenceSorter() returns (n: Node)
    ensures fresh(NodeAndChildren(n)) && DefaultNode(n, CoincidenceSorter)
    ensures exists c1: Node :: n.fields == CoincidenceSorterFields(c1)
  {
    var c1 := NewValue();
    n := new Node(CoincidenceSorter, CoincidenceSorterFields(c1));
    CoincidenceSorterFresh(n, c1);
    CoincidenceSorterDefault(n, c1);
  }

  /** The fields `new ChooseSource()` stores. */
  function ChooseSourceFields(): map<string, JsValue>
  {
    map[
      "choose_source" := Undefined]
  }

  /** The fields `new ChooseSource()` stores conform to `ChooseSource.input_type`. */
  lemma ChooseSourceConforms()
    ensures Conforms(ChooseSource, ChooseSourceFields(), true)
  {
  }

  /** The fields of `new ChooseSource()` hold no node, and so share none. */
  lemma ChooseSourceChildren()
    ensures ChildNodes(ChooseSourceFields()) == {}
    ensures Unshared(ChooseSourceFields())
  {
  }

  /** A node that holds the fields of `new ChooseSource()`, and whose child nodes
      are built for it and are not the node itself, is what `new ChooseSource()` builds. */
  lemma ChooseSourceDefault(n: Node)
    requires n.cls == ChooseSource && n.fields == ChooseSourceFields()
    ensures DefaultNode(n, ChooseSource)
    ensures ChildNodes(n.fields) == {}
  {
    ChooseSourceConforms();
    ChooseSourceChildren();
  }

  /** `new ChooseSource()`. */
  method NewChooseSource() returns (n: Node)
    ensures fresh(NodeAndChildren(n)) && DefaultNode(n, ChooseSource)
    ensures n.fields == ChooseSourceFields()
  {
    n := new Node(ChooseSource, ChooseSourceFields());
    ChooseSourceDefault(n);
  }

  /** The fields `new Source()` stores, given the nodes it builds for them. */
  function SourceFields(c1: Node, c2: Node, c3: Node, c4: Node, c5: Node, c6: Node, c7: Node,
      c8: Node, c9: Node): map<string, JsValue>
  {
    map[
      "name" := Str(""),
      "activity" := Ref(c1),
      "type" := Str(""),
      "centre" := Ref(c2),
      "particle" := Str(""),
      "energytype" := Str(""),
      "monoenergy" := Ref(c3),
      "gps_type" := Str(""),
      "shape" := Str(""),
      "radius" := Ref(c4),
      "halfz" := Ref(c5),
      "angtype" := Str(""),
      "mintheta" := Ref(c6),
      "maxtheta" := Ref(c7),
      "minphi" := Ref(c8),
      "maxphi" := Ref(c9)]
  }

  /** The keys `new Source()` stores are the keys `Source.input_type` describes. */
  lemma SourceKeys(c1: Node, c2: Node, c3: Node, c4: Node, c5: Node, c6: Node, c7: Node, c8: Node,
      c9: Node)
    ensures var f := SourceFields(c1, c2, c3, c4, c5, c6, c7, c8, c9);
      forall key :: key in f <==> Corrected(Source, key, SourceInputType(key)).Some?
  {
  }

  /** The fields `name`, `activity`, `type`, `centre`, `particle` that `new Source()` stores hold
      the initial values of their descriptors. */
  lemma SourceFieldsFit1(c1: Node, c2: Node, c3: Node, c4: Node, c5: Node, c6: Node, c7: Node,
      c8: Node, c9: Node)
    requires c1.cls == Value && c2.cls == Vec3 && c3.cls == Value && c4.cls == Value &&
      c5.cls == Value && c6.cls == Value && c7.cls == Value && c8.cls == Value && c9.cls == Value
    ensures var f := SourceFields(c1, c2, c3, c4, c5, c6, c7, c8, c9);
      forall key :: key in f && key in ["name", "activity", "type", "centre", "particle"] ==>
        var d := Corrected(Source, key, SourceInputType(key));
        d.Some? && FieldFits(Source, key, f[key], d.value, true)
  {
  }

  /** The fields `energytype`, `monoenergy`, `gps_type`, `shape`, `radius` that `new Source()`
      stores hold the initial values of their descriptors. */
  lemma SourceFieldsFit2(c1: Node, c2: Node, c3: Node, c4: Node, c5: Node, c6: Node, c7: Node,
      c8: Node, c9: Node)
    requires c1.cls == Value && c2.cls == Vec3 && c3.cls == Value && c4.cls == Value &&
      c5.cls == Value && c6.cls == Value && c7.cls == Value && c8.cls == Value && c9.cls == Value
    ensures var f := SourceFields(c1, c2, c3, c4, c5, c6, c7, c8, c9);
      forall key :: (key in f && key in ["energytype", "monoenergy", "gps_type", "shape",
        "radius"]) ==>
        var d := Corrected(Source, key, SourceInputType(key));
        d.Some? && FieldFits(Source, key, f[key], d.value, true)
  {
  }

  /** The fields `halfz`, `angtype`, `mintheta`, `maxtheta`, `minphi` that `new Source()` stores
      hold the initial values of their descriptors. */
  lemma SourceFieldsFit3(c1: Node, c2: Node, c3: Node, c4: Node, c5: Node, c6: Node, c7: Node,
      c8: Node, c9: Node)
    requires c1.cls == Value && c2.cls == Vec3 && c3.cls == Value && c4.cls == Value &&
      c5.cls == Value && c6.cls == Value && c7.cls == Value && c8.cls == Value && c9.cls == Value
    ensures var f := SourceFields(c1, c2, c3, c4, c5, c6, c7, c8, c9);
      forall key :: key in f && key in ["halfz", "angtype", "mintheta", "maxtheta", "minphi"] ==>
        var d := Corrected(Source, key, SourceInputType(key));
        d.Some? && FieldFits(Source, key, f[key], d.value, true)
  {
  }

  /** The fields `maxphi` that `new Source()` stores hold the initial values of their descriptors.
      */
  lemma SourceFieldsFit4(c1: Node, c2: Node, c3: Node, c4: Node, c5: Node, c6: Node, c7: Node,
      c8: Node, c9: Node)
    requires c1.cls == Value && c2.cls == Vec3 && c3.cls == Value && c4.cls == Value &&
      c5.cls == Value && c6.cls == Value && c7.cls == Value && c8.cls == Value && c9.cls == Value
    ensures var f := SourceFields(c1, c2, c3, c4, c5, c6, c7, c8, c9);
      forall key :: key in f && key in ["maxphi"] ==>
        var d := Corrected(Source, key, SourceInputType(key));
        d.Some? && FieldFits(Source, key, f[key], d.value, true)
  {
  }

  /** Each field `new Source()` stores holds the initial value of its descriptor. */
  lemma SourceFieldsFit(c1: Node, c2: Node, c3: Node, c4: Node, c5: Node, c6: Node, c7: Node,
      c8: Node, c9: Node)
    requires c1.cls == Value && c2.cls == Vec3 && c3.cls == Value && c4.cls == Value &&
      c5.cls == Value && c6.cls == Value && c7.cls == Value && c8.cls == Value && c9.cls == Value
    ensures var f := SourceFields(c1, c2, c3, c4, c5, c6, c7, c8, c9);
      forall key :: key in f ==>
        var d := Corrected(Source, key, SourceInputType(key));
        d.Some? && FieldFits(Source, key, f[key], d.value, true)
  {
    SourceFieldsFit1(c1, c2, c3, c4, c5, c6, c7, c8, c9);
    SourceFieldsFit2(c1, c2, c3, c4, c5, c6, c7, c8, c9);
    SourceFieldsFit3(c1, c2, c3, c4, c5, c6, c7, c8, c9);
    SourceFieldsFit4(c1, c2, c3, c4, c5, c6, c7, c8, c9);
  }

  /** The fields `new Source()` stores conform to `Source.input_type`. */
  lemma SourceConforms(c1: Node, c2: Node, c3: Node, c4: Node, c5: Node, c6: Node, c7: Node,
      c8: Node, c9: Node)
    requires c1.cls == Value && c2.cls == Vec3 && c3.cls == Value && c4.cls == Value &&
      c5.cls == Value && c6.cls == Value && c7.cls == Value && c8.cls == Value && c9.cls == Value
    ensures Conforms(Source, SourceFields(c1, c2, c3, c4, c5, c6, c7, c8, c9), true)
  {
    forall key
      ensures InputType(Source, key) == Corrected(Source, key, SourceInputType(key))
    {
      InputTypeOfSource(key);
    }
    SourceKeys(c1, c2, c3, c4, c5, c6, c7, c8, c9);
    SourceFieldsFit(c1, c2, c3, c4, c5, c6, c7, c8, c9);
  }

  /** The nodes the fields of `new Source()` hold are the ones it builds for them. */
  lemma SourceChildren(c1: Node, c2: Node, c3: Node, c4: Node, c5: Node, c6: Node, c7: Node,
      c8: Node, c9: Node)
    ensures forall x :: x in ChildNodes(SourceFields(c1, c2, c3, c4, c5, c6, c7, c8, c9)) ==>
      x == c1 || x == c2 || x == c3 || x == c4 || x == c5 || x == c6 || x == c7 || x == c8 ||
      x == c9
  {
  }

  /** The field of `new Source()` that holds each node it builds. */
  function SourceOwner(c1: Node, c2: Node, c3: Node, c4: Node, c5: Node, c6: Node, c7: Node,
      c8: Node, c9: Node): map<Node, string>
  {
    map[c1 := "activity", c2 := "centre", c3 := "monoenergy", c4 := "radius", c5 := "halfz",
      c6 := "mintheta", c7 := "maxtheta", c8 := "minphi", c9 := "maxphi"]
  }

  /** The fields `name`, `activity`, `type` of `new Source()` hold only nodes it gives to them. */
  lemma SourceOwned1(c1: Node, c2: Node, c3: Node, c4: Node, c5: Node, c6: Node, c7: Node, c8: Node,
      c9: Node)
    requires c1.cls == Value && c2.cls == Vec3 && c3.cls == Value && c4.cls == Value &&
      c5.cls == Value && c6.cls == Value && c7.cls == Value && c8.cls == Value && c9.cls == Value &&
      c1 != c3 && c1 != c4 && c1 != c5 && c1 != c6 && c1 != c7 && c1 != c8 && c1 != c9 &&
      c3 != c4 && c3 != c5 && c3 != c6 && c3 != c7 && c3 != c8 && c3 != c9 && c4 != c5 &&
      c4 != c6 && c4 != c7 && c4 != c8 && c4 != c9 && c5 != c6 && c5 != c7 && c5 != c8 &&
      c5 != c9 && c6 != c7 && c6 != c8 && c6 != c9 && c7 != c8 && c7 != c9 && c8 != c9
    ensures var f := SourceFields(c1, c2, c3, c4, c5, c6, c7, c8, c9);
      forall key :: key in f && key in ["name", "activity", "type"] ==>
        OwnedBy(f[key], key, SourceOwner(c1, c2, c3, c4, c5, c6, c7, c8, c9))
  {
  }

  /** The fields `centre`, `particle`, `energytype` of `new Source()` hold only nodes it gives to
      them. */
  lemma SourceOwned2(c1: Node, c2: Node, c3: Node, c4: Node, c5: Node, c6: Node, c7: Node, c8: Node,
      c9: Node)
    requires c1.cls == Value && c2.cls == Vec3 && c3.cls == Value && c4.cls == Value &&
      c5.cls == Value && c6.cls == Value && c7.cls == Value && c8.cls == Value && c9.cls == Value &&
      c1 != c3 && c1 != c4 && c1 != c5 && c1 != c6 && c1 != c7 && c1 != c8 && c1 != c9 &&
      c3 != c4 && c3 != c5 && c3 != c6 && c3 != c7 && c3 != c8 && c3 != c9 && c4 != c5 &&
      c4 != c6 && c4 != c7 && c4 != c8 && c4 != c9 && c5 != c6 && c5 != c7 && c5 != c8 &&
      c5 != c9 && c6 != c7 && c6 != c8 && c6 != c9 && c7 != c8 && c7 != c9 && c8 != c9
    ensures var f := SourceFields(c1, c2, c3, c4, c5, c6, c7, c8, c9);
      forall key :: key in f && key in ["centre", "particle", "energytype"] ==>
        OwnedBy(f[key], key, SourceOwner(c1, c2, c3, c4, c5, c6, c7, c8, c9))
  {
  }

  /** The fields `monoenergy`, `gps_type`, `shape` of `new Source()` hold only nodes it gives to
      them. */
  lemma SourceOwned3(c1: Node, c2: Node, c3: Node, c4: Node, c5: Node, c6: Node, c7: Node, c8: Node,
      c9: Node)
    requires c1.cls == Value && c2.cls == Vec3 && c3.cls == Value && c4.cls == Value &&
      c5.cls == Value && c6.cls == Value && c7.cls == Value && c8.cls == Value && c9.cls == Value &&
      c1 != c3 && c1 != c4 && c1 != c5 && c1 != c6 && c1 != c7 && c1 != c8 && c1 != c9 &&
      c3 != c4 && c3 != c5 && c3 != c6 && c3 != c7 && c3 != c8 && c3 != c9 && c4 != c5 &&
      c4 != c6 && c4 != c7 && c4 != c8 && c4 != c9 && c5 != c6 && c5 != c7 && c5 != c8 &&
      c5 != c9 && c6 != c7 && c6 != c8 && c6 != c9 && c7 != c8 && c7 != c9 && c8 != c9
    ensures var f := SourceFields(c1, c2, c3, c4, c5, c6, c7, c8, c9);
      forall key :: key in f && key in ["monoenergy", "gps_type", "shape"] ==>
        OwnedBy(f[key], key, SourceOwner(c1, c2, c3, c4, c5, c6, c7, c8, c9))
  {
  }

  /** The fields `radius`, `halfz`, `angtype` of `new Source()` hold only nodes it gives to them. */
  lemma SourceOwned4(c1: Node, c2: Node, c3: Node, c4: Node, c5: Node, c6: Node, c7: Node, c8: Node,
      c9: Node)
    requires c1.cls == Value && c2.cls == Vec3 && c3.cls == Value && c4.cls == Value &&
      c5.cls == Value && c6.cls == Value && c7.cls == Value && c8.cls == Value && c9.cls == Value &&
      c1 != c3 && c1 != c4 && c1 != c5 && c1 != c6 && c1 != c7 && c1 != c8 && c1 != c9 &&
      c3 != c4 && c3 != c5 && c3 != c6 && c3 != c7 && c3 != c8 && c3 != c9 && c4 != c5 &&
      c4 != c6 && c4 != c7 && c4 != c8 && c4 != c9 && c5 != c6 && c5 != c7 && c5 != c8 &&
      c5 != c9 && c6 != c7 && c6 != c8 && c6 != c9 && c7 != c8 && c7 != c9 && c8 != c9
    ensures var f := SourceFields(c1, c2, c3, c4, c5, c6, c7, c8, c9);
      forall key :: key in f && key in ["radius", "halfz", "angtype"] ==>
        OwnedBy(f[key], key, SourceOwner(c1, c2, c3, c4, c5, c6, c7, c8, c9))
  {
  }

  /** The fields `mintheta`, `maxtheta`, `minphi`, `maxphi` of `new Source()` hold only nodes it
      gives to them. */
  lemma SourceOwned5(c1: Node, c2: Node, c3: Node, c4: Node, c5: Node, c6: Node, c7: Node, c8: Node,
      c9: Node)
    requires c1.cls == Value && c2.cls == Vec3 && c3.cls == Value && c4.cls == Value &&
      c5.cls == Value && c6.cls == Value && c7.cls == Value && c8.cls == Value && c9.cls == Value &&
      c1 != c3 && c1 != c4 && c1 != c5 && c1 != c6 && c1 != c7 && c1 != c8 && c1 != c9 &&
      c3 != c4 && c3 != c5 && c3 != c6 && c3 != c7 && c3 != c8 && c3 != c9 && c4 != c5 &&
      c4 != c6 && c4 != c7 && c4 != c8 && c4 != c9 && c5 != c6 && c5 != c7 && c5 != c8 &&
      c5 != c9 && c6 != c7 && c6 != c8 && c6 != c9 && c7 != c8 && c7 != c9 && c8 != c9
    ensures var f := SourceFields(c1, c2, c3, c4, c5, c6, c7, c8, c9);
      forall key :: key in f && key in ["mintheta", "maxtheta", "minphi", "maxphi"] ==>
        OwnedBy(f[key], key, SourceOwner(c1, c2, c3, c4, c5, c6, c7, c8, c9))
  {
  }

  /** Each node the fields of `new Source()` hold is held at one place only. */
  lemma SourceUnshared(c1: Node, c2: Node, c3: Node, c4: Node, c5: Node, c6: Node, c7: Node,
      c8: Node, c9: Node)
    requires c1.cls == Value && c2.cls == Vec3 && c3.cls == Value && c4.cls == Value &&
      c5.cls == Value && c6.cls == Value && c7.cls == Value && c8.cls == Value && c9.cls == Value &&
      c1 != c3 && c1 != c4 && c1 != c5 && c1 != c6 && c1 != c7 && c1 != c8 && c1 != c9 &&
      c3 != c4 && c3 != c5 && c3 != c6 && c3 != c7 && c3 != c8 && c3 != c9 && c4 != c5 &&
      c4 != c6 && c4 != c7 && c4 != c8 && c4 != c9 && c5 != c6 && c5 != c7 && c5 != c8 &&
      c5 != c9 && c6 != c7 && c6 != c8 && c6 != c9 && c7 != c8 && c7 != c9 && c8 != c9
    ensures Unshared(SourceFields(c1, c2, c3, c4, c5, c6, c7, c8, c9))
  {
    SourceOwned1(c1, c2, c3, c4, c5, c6, c7, c8, c9);
    SourceOwned2(c1, c2, c3, c4, c5, c6, c7, c8, c9);
    SourceOwned3(c1, c2, c3, c4, c5, c6, c7, c8, c9);
    SourceOwned4(c1, c2, c3, c4, c5, c6, c7, c8, c9);
    SourceOwned5(c1, c2, c3, c4, c5, c6, c7, c8, c9);
    UnsharedByOwner(SourceFields(c1, c2, c3, c4, c5, c6, c7, c8, c9),
      SourceOwner(c1, c2, c3, c4, c5, c6, c7, c8, c9));
  }

  /** A node that holds the fields of `new Source()`, and whose child nodes
      are built for it and are not the node itself, is what `new Source()` builds. */
  lemma SourceDefault(n: Node, c1: Node, c2: Node, c3: Node, c4: Node, c5: Node, c6: Node, c7: Node,
      c8: Node, c9: Node)
    requires n.cls == Source &&
      n.fields == SourceFields(c1, c2, c3, c4, c5, c6, c7, c8, c9)
    requires BuiltChild(n, c1) && BuiltChild(n, c2) && BuiltChild(n, c3) && BuiltChild(n, c4) &&
      BuiltChild(n, c5) && BuiltChild(n, c6) && BuiltChild(n, c7) && BuiltChild(n, c8) &&
      BuiltChild(n, c9) && c1.cls == Value && c2.cls == Vec3 && c3.cls == Value &&
      c4.cls == Value && c5.cls == Value && c6.cls == Value && c7.cls == Value && c8.cls == Value &&
      c9.cls == Value && c1 != c3 && c1 != c4 && c1 != c5 && c1 != c6 && c1 != c7 && c1 != c8 &&
      c1 != c9 && c3 != c4 && c3 != c5 && c3 != c6 && c3 != c7 && c3 != c8 && c3 != c9 &&
      c4 != c5 && c4 != c6 && c4 != c7 && c4 != c8 && c4 != c9 && c5 != c6 && c5 != c7 &&
      c5 != c8 && c5 != c9 && c6 != c7 && c6 != c8 && c6 != c9 && c7 != c8 && c7 != c9 && c8 != c9
    ensures DefaultNode(n, Source)
    ensures forall x :: x in ChildNodes(n.fields) ==>
      x == c1 || x == c2 || x == c3 || x == c4 || x == c5 || x == c6 || x == c7 || x == c8 ||
      x == c9
  {
    SourceConforms(c1, c2, c3, c4, c5, c6, c7, c8, c9);
    SourceChildren(c1, c2, c3, c4, c5, c6, c7, c8, c9);
    SourceUnshared(c1, c2, c3, c4, c5, c6, c7, c8, c9);
  }

  /** `new Source()` allocates the node it returns and every node its fields hold. */
  twostate lemma SourceFresh(new n: Node, new c1: Node, new c2: Node, new c3: Node, new c4: Node,
      new c5: Node, new c6: Node, new c7: Node, new c8: Node, new c9: Node)
    requires fresh(n) && fresh(c1) && fresh(c2) && fresh(c3) && fresh(c4) && fresh(c5) &&
      fresh(c6) && fresh(c7) && fresh(c8) && fresh(c9)
    requires n.fields == SourceFields(c1, c2, c3, c4, c5, c6, c7, c8, c9)
    ensures fresh(NodeAndChildren(n))
  {
    SourceChildren(c1, c2, c3, c4, c5, c6, c7, c8, c9);
  }

  /** `new Source()`. */
  method NewSource() returns (n: Node)
    ensures fresh(NodeAndChildren(n)) && DefaultNode(n, Source)
    ensures
      exists c1: Node, c2: Node, c3: Node, c4: Node, c5: Node, c6: Node, c7: Node, c8: Node,
        c9: Node ::
        n.fields == SourceFields(c1, c2, c3, c4, c5, c6, c7, c8, c9)
  {
    var c1 := NewValue();
    var c2 := NewVec3();
    var c3 := NewValue();
    var c4 := NewValue();
    var c5 := NewValue();
    var c6 := NewValue();
    var c7 := NewValue();
    var c8 := NewValue();
    var c9 := NewValue();
    n := new Node(Source, SourceFields(c1, c2, c3, c4, c5, c6, c7, c8, c9));
    SourceFresh(n, c1, c2, c3, c4, c5, c6, c7, c8, c9);
    SourceDefault(n, c1, c2, c3, c4, c5, c6, c7, c8, c9);
  }

  /** The fields `new VoxelizedSource()` stores, given the nodes it builds for them. */
  function VoxelizedSourceFields(c1: Node, c2: Node, c3: Node, c4: Node, c5: Node, c6: Node,
      c7: Node): map<string, JsValue>
  {
    map[
      "name" := Str(""),
      "insert_reader" := Str(""),
      "insert_translator" := Undefined,
      "read_file" := Str(""),
      "verbose" := Bool(false),
      "position" := Ref(c1),
      "dump" := Bool(false),
      "type" := Str(""),
      "particle" := Str(""),
      "energy_type" := Str(""),
      "monoenergy" := Ref(c2),
      "angtype" := Str(""),
      "mintheta" := Ref(c3),
      "maxtheta" := Ref(c4),
      "minphi" := Ref(c5),
      "maxphi" := Ref(c6),
      "confine" := Str(""),
      "forced_unstable_flag" := Bool(false),
      "forced_half_life" := Ref(c7)]
  }

  /** The keys `new VoxelizedSource()` stores are the keys `VoxelizedSource.input_type` describes.
      */
  lemma VoxelizedSourceKeys(c1: Node, c2: Node, c3: Node, c4: Node, c5: Node, c6: Node, c7: Node)
    ensures var f := VoxelizedSourceFields(c1, c2, c3, c4, c5, c6, c7);
      forall key :: key in f <==> Corrected(VoxelizedSource, key,
          VoxelizedSourceInputType(key)).Some?
  {
  }

  /** The fields `name`, `insert_reader`, `insert_translator`, `read_file`, `verbose` that `new
      VoxelizedSource()` stores hold the initial values of their descriptors. */
  lemma VoxelizedSourceFieldsFit1(c1: Node, c2: Node, c3: Node, c4: Node, c5: Node, c6: Node,
      c7: Node)
    requires c1.cls == Vec3 && c2.cls == Value && c3.cls == Value && c4.cls == Value &&
      c5.cls == Value && c6.cls == Value && c7.cls == Value
    ensures var f := VoxelizedSourceFields(c1, c2, c3, c4, c5, c6, c7);
      forall key :: (key in f && key in ["name", "insert_reader", "insert_translator", "read_file",
        "verbose"]) ==>
        var d := Corrected(VoxelizedSource, key, VoxelizedSourceInputType(key));
        d.Some? && FieldFits(VoxelizedSource, key, f[key], d.value, true)
  {
  }

  /** The fields `position`, `dump`, `type`, `particle`, `energy_type` that `new VoxelizedSource()`
      stores hold the initial values of their descriptors. */
  lemma VoxelizedSourceFieldsFit2(c1: Node, c2: Node, c3: Node, c4: Node, c5: Node, c6: Node,
      c7: Node)
    requires c1.cls == Vec3 && c2.cls == Value && c3.cls == Value && c4.cls == Value &&
      c5.cls == Value && c6.cls == Value && c7.cls == Value
    ensures var f := VoxelizedSourceFields(c1, c2, c3, c4, c5, c6, c7);
      forall key :: key in f && key in ["position", "dump", "type", "particle", "energy_type"] ==>
        var d := Corrected(VoxelizedSource, key, VoxelizedSourceInputType(key));
        d.Some? && FieldFits(VoxelizedSource, key, f[key], d.value, true)
  {
  }

  /** The fields `monoenergy`, `angtype`, `mintheta`, `maxtheta`, `minphi` that `new
      VoxelizedSource()` stores hold the initial values of their descriptors. */
  lemma VoxelizedSourceFieldsFit3(c1: Node, c2: Node, c3: Node, c4: Node, c5: Node, c6: Node,
      c7: Node)
    requires c1.cls == Vec3 && c2.cls == Value && c3.cls == Value && c4.cls == Value &&
      c5.cls == Value && c6.cls == Value && c7.cls == Value
    ensures var f := VoxelizedSourceFields(c1, c2, c3, c4, c5, c6, c7);
      forall key :: (key in f && key in ["monoenergy", "angtype", "mintheta", "maxtheta",
        "minphi"]) ==>
        var d := Corrected(VoxelizedSource, key, VoxelizedSourceInputType(key));
        d.Some? && FieldFits(VoxelizedSource, key, f[key], d.value, true)
  {
  }

  /** The fields `maxphi`, `confine`, `forced_unstable_flag`, `forced_half_life` that `new
      VoxelizedSource()` stores hold the initial values of their descriptors. */
  lemma VoxelizedSourceFieldsFit4(c1: Node, c2: Node, c3: Node, c4: Node, c5: Node, c6: Node,
      c7: Node)
    requires c1.cls == Vec3 && c2.cls == Value && c3.cls == Value && c4.cls == Value &&
      c5.cls == Value && c6.cls == Value && c7.cls == Value
    ensures var f := VoxelizedSourceFields(c1, c2, c3, c4, c5, c6, c7);
      forall key :: (key in f && key in ["maxphi", "confine", "forced_unstable_flag",
        "forced_half_life"]) ==>
        var d := Corrected(VoxelizedSource, key, VoxelizedSourceInputType(key));
        d.Some? && FieldFits(VoxelizedSource, key, f[key], d.value, true)
  {
  }

  /** Each field `new VoxelizedSource()` stores holds the initial value of its descriptor. */
  lemma VoxelizedSourceFieldsFit(c1: Node, c2: Node, c3: Node, c4: Node, c5: Node, c6: Node,
      c7: Node)
    requires c1.cls == Vec3 && c2.cls == Value && c3.cls == Value && c4.cls == Value &&
      c5.cls == Value && c6.cls == Value && c7.cls == Value
    ensures var f := VoxelizedSourceFields(c1, c2, c3, c4, c5, c6, c7);
      forall key :: key in f ==>
        var d := Corrected(VoxelizedSource, key, VoxelizedSourceInputType(key));
        d.Some? && FieldFits(VoxelizedSource, key, f[key], d.value, true)
  {
    VoxelizedSourceFieldsFit1(c1, c2, c3, c4, c5, c6, c7);
    VoxelizedSourceFieldsFit2(c1, c2, c3, c4, c5, c6, c7);
    VoxelizedSourceFieldsFit3(c1, c2, c3, c4, c5, c6, c7);
    VoxelizedSourceFieldsFit4(c1, c2, c3, c4, c5, c6, c7);
  }

  /** The fields `new VoxelizedSource()` stores conform to `VoxelizedSource.input_type`. */
  lemma VoxelizedSourceConforms(c1: Node, c2: Node, c3: Node, c4: Node, c5: Node, c6: Node,
      c7: Node)
    requires c1.cls == Vec3 && c2.cls == Value && c3.cls == Value && c4.cls == Value &&
      c5.cls == Value && c6.cls == Value && c7.cls == Value
    ensures Conforms(VoxelizedSource, VoxelizedSourceFields(c1, c2, c3, c4, c5, c6, c7), true)
  {
    forall key
      ensures InputType(VoxelizedSource, key) ==
        Corrected(VoxelizedSource, key, VoxelizedSourceInputType(key))
    {
      InputTypeOfVoxelizedSource(key);
    }
    VoxelizedSourceKeys(c1, c2, c3, c4, c5, c6, c7);
    VoxelizedSourceFieldsFit(c1, c2, c3, c4, c5, c6, c7);
  }

  /** The nodes the fields of `new VoxelizedSource()` hold are the ones it builds for them. */
  lemma VoxelizedSourceChildren(c1: Node, c2: Node, c3: Node, c4: Node, c5: Node, c6: Node,
      c7: Node)
    ensures forall x :: x in ChildNodes(VoxelizedSourceFields(c1, c2, c3, c4, c5, c6, c7)) ==>
      x == c1 || x == c2 || x == c3 || x == c4 || x == c5 || x == c6 || x == c7
  {
  }

  /** The field of `new VoxelizedSource()` that holds each node it builds. */
  function VoxelizedSourceOwner(c1: Node, c2: Node, c3: Node, c4: Node, c5: Node, c6: Node,
      c7: Node): map<Node, string>
  {
    map[c1 := "position", c2 := "monoenergy", c3 := "mintheta", c4 := "maxtheta", c5 := "minphi",
      c6 := "maxphi", c7 := "forced_half_life"]
  }

  /** The fields `name`, `insert_reader`, `insert_translator` of `new VoxelizedSource()` hold only
      nodes it gives to them. */
  lemma VoxelizedSourceOwned1(c1: Node, c2: Node, c3: Node, c4: Node, c5: Node, c6: Node, c7: Node)
    requires c1.cls == Vec3 && c2.cls == Value && c3.cls == Value && c4.cls == Value &&
      c5.cls == Value && c6.cls == Value && c7.cls == Value && c2 != c3 && c2 != c4 && c2 != c5 &&
      c2 != c6 && c2 != c7 && c3 != c4 && c3 != c5 && c3 != c6 && c3 != c7 && c4 != c5 &&
      c4 != c6 && c4 != c7 && c5 != c6 && c5 != c7 && c6 != c7
    ensures var f := VoxelizedSourceFields(c1, c2, c3, c4, c5, c6, c7);
      forall key :: key in f && key in ["name", "insert_reader", "insert_translator"] ==>
        OwnedBy(f[key], key, VoxelizedSourceOwner(c1, c2, c3, c4, c5, c6, c7))
  {
  }

  /** The fields `read_file`, `verbose`, `position` of `new VoxelizedSource()` hold only nodes it
      gives to them. */
  lemma VoxelizedSourceOwned2(c1: Node, c2: Node, c3: Node, c4: Node, c5: Node, c6: Node, c7: Node)
    requires c1.cls == Vec3 && c2.cls == Value && c3.cls == Value && c4.cls == Value &&
      c5.cls == Value && c6.cls == Value && c7.cls == Value && c2 != c3 && c2 != c4 && c2 != c5 &&
      c2 != c6 && c2 != c7 && c3 != c4 && c3 != c5 && c3 != c6 && c3 != c7 && c4 != c5 &&
      c4 != c6 && c4 != c7 && c5 != c6 && c5 != c7 && c6 != c7
    ensures var f := VoxelizedSourceFields(c1, c2, c3, c4, c5, c6, c7);
      forall key :: key in f && key in ["read_file", "verbose", "position"] ==>
        OwnedBy(f[key], key, VoxelizedSourceOwner(c1, c2, c3, c4, c5, c6, c7))
  {
  }

  /** The fields `dump`, `type`, `particle` of `new VoxelizedSource()` hold only nodes it gives to
      them. */
  lemma VoxelizedSourceOwned3(c1: Node, c2: Node, c3: Node, c4: Node, c5: Node, c6: Node, c7: Node)
    requires c1.cls == Vec3 && c2.cls == Value && c3.cls == Value && c4.cls == Value &&
      c5.cls == Value && c6.cls == Value && c7.cls == Value && c2 != c3 && c2 != c4 && c2 != c5 &&
      c2 != c6 && c2 != c7 && c3 != c4 && c3 != c5 && c3 != c6 && c3 != c7 && c4 != c5 &&
      c4 != c6 && c4 != c7 && c5 != c6 && c5 != c7 && c6 != c7
    ensures var f := VoxelizedSourceFields(c1, c2, c3, c4, c5, c6, c7);
      forall key :: key in f && key in ["dump", "type", "particle"] ==>
        OwnedBy(f[key], key, VoxelizedSourceOwner(c1, c2, c3, c4, c5, c6, c7))
  {
  }

  /** The fields `energy_type`, `monoenergy`, `angtype` of `new VoxelizedSource()` hold only nodes
      it gives to them. */
  lemma VoxelizedSourceOwned4(c1: Node, c2: Node, c3: Node, c4: Node, c5: Node, c6: Node, c7: Node)
    requires c1.cls == Vec3 && c2.cls == Value && c3.cls == Value && c4.cls == Value &&
      c5.cls == Value && c6.cls == Value && c7.cls == Value && c2 != c3 && c2 != c4 && c2 != c5 &&
      c2 != c6 && c2 != c7 && c3 != c4 && c3 != c5 && c3 != c6 && c3 != c7 && c4 != c5 &&
      c4 != c6 && c4 != c7 && c5 != c6 && c5 != c7 && c6 != c7
    ensures var f := VoxelizedSourceFields(c1, c2, c3, c4, c5, c6, c7);
      forall key :: key in f && key in ["energy_type", "monoenergy", "angtype"] ==>
        OwnedBy(f[key], key, VoxelizedSourceOwner(c1, c2, c3, c4, c5, c6, c7))
  {
  }

  /** The fields `mintheta`, `maxtheta`, `minphi` of `new VoxelizedSource()` hold only nodes it
      gives to them. */
  lemma VoxelizedSourceOwned5(c1: Node, c2: Node, c3: Node, c4: Node, c5: Node, c6: Node, c7: Node)
    requires c1.cls == Vec3 && c2.cls == Value && c3.cls == Value && c4.cls == Value &&
      c5.cls == Value && c6.cls == Value && c7.cls == Value && c2 != c3 && c2 != c4 && c2 != c5 &&
      c2 != c6 && c2 != c7 && c3 != c4 && c3 != c5 && c3 != c6 && c3 != c7 && c4 != c5 &&
      c4 != c6 && c4 != c7 && c5 != c6 && c5 != c7 && c6 != c7
    ensures var f := VoxelizedSourceFields(c1, c2, c3, c4, c5, c6, c7);
      forall key :: key in f && key in ["mintheta", "maxtheta", "minphi"] ==>
        OwnedBy(f[key], key, VoxelizedSourceOwner(c1, c2, c3, c4, c5, c6, c7))
  {
  }

  /** The fields `maxphi`, `confine`, `forced_unstable_flag`, `forced_half_life` of `new
      VoxelizedSource()` hold only nodes it gives to them. */
  lemma VoxelizedSourceOwned6(c1: Node, c2: Node, c3: Node, c4: Node, c5: Node, c6: Node, c7: Node)
    requires c1.cls == Vec3 && c2.cls == Value && c3.cls == Value && c4.cls == Value &&
      c5.cls == Value && c6.cls == Value && c7.cls == Value && c2 != c3 && c2 != c4 && c2 != c5 &&
      c2 != c6 && c2 != c7 && c3 != c4 && c3 != c5 && c3 != c6 && c3 != c7 && c4 != c5 &&
      c4 != c6 && c4 != c7 && c5 != c6 && c5 != c7 && c6 != c7
    ensures var f := VoxelizedSourceFields(c1, c2, c3, c4, c5, c6, c7);
      forall key :: key in f && key in ["maxphi", "confine", "forced_unstable_flag",
        "forced_half_life"] ==>
        OwnedBy(f[key], key, VoxelizedSourceOwner(c1, c2, c3, c4, c5, c6, c7))
  {
  }

  /** Each node the fields of `new VoxelizedSource()` hold is held at one place only. */
  lemma VoxelizedSourceUnshared(c1: Node, c2: Node, c3: Node, c4: Node, c5: Node, c6: Node,
      c7: Node)
    requires c1.cls == Vec3 && c2.cls == Value && c3.cls == Value && c4.cls == Value &&
      c5.cls == Value && c6.cls == Value && c7.cls == Value && c2 != c3 && c2 != c4 && c2 != c5 &&
      c2 != c6 && c2 != c7 && c3 != c4 && c3 != c5 && c3 != c6 && c3 != c7 && c4 != c5 &&
      c4 != c6 && c4 != c7 && c5 != c6 && c5 != c7 && c6 != c7
    ensures Unshared(VoxelizedSourceFields(c1, c2, c3, c4, c5, c6, c7))
  {
    VoxelizedSourceOwned1(c1, c2, c3, c4, c5, c6, c7);
    VoxelizedSourceOwned2(c1, c2, c3, c4, c5, c6, c7);
    VoxelizedSourceOwned3(c1, c2, c3, c4, c5, c6, c7);
    VoxelizedSourceOwned4(c1, c2, c3, c4, c5, c6, c7);
    VoxelizedSourceOwned5(c1, c2, c3, c4, c5, c6, c7);
    VoxelizedSourceOwned6(c1, c2, c3, c4, c5, c6, c7);
    UnsharedByOwner(VoxelizedSourceFields(c1, c2, c3, c4, c5, c6, c7),
      VoxelizedSourceOwner(c1, c2, c3, c4, c5, c6, c7));
  }

  /** A node that holds the fields of `new VoxelizedSource()`, and whose child nodes
      are built for it and are not the node itself, is what `new VoxelizedSource()` builds. */
  lemma VoxelizedSourceDefault(n: Node, c1: Node, c2: Node, c3: Node, c4: Node, c5: Node, c6: Node,
      c7: Node)
    requires n.cls == VoxelizedSource &&
      n.fields == VoxelizedSourceFields(c1, c2, c3, c4, c5, c6, c7)
    requires BuiltChild(n, c1) && BuiltChild(n, c2) && BuiltChild(n, c3) && BuiltChild(n, c4) &&
      BuiltChild(n, c5) && BuiltChild(n, c6) && BuiltChild(n, c7) && c1.cls == Vec3 &&
      c2.cls == Value && c3.cls == Value && c4.cls == Value && c5.cls == Value && c6.cls == Value &&
      c7.cls == Value && c2 != c3 && c2 != c4 && c2 != c5 && c2 != c6 && c2 != c7 && c3 != c4 &&
      c3 != c5 && c3 != c6 && c3 != c7 && c4 != c5 && c4 != c6 && c4 != c7 && c5 != c6 &&
      c5 != c7 && c6 != c7
    ensures DefaultNode(n, VoxelizedSource)
    ensures forall x :: x in ChildNodes(n.fields) ==>
      x == c1 || x == c2 || x == c3 || x == c4 || x == c5 || x == c6 || x == c7
  {
    VoxelizedSourceConforms(c1, c2, c3, c4, c5, c6, c7);
    VoxelizedSourceChildren(c1, c2, c3, c4, c5, c6, c7);
    VoxelizedSourceUnshared(c1, c2, c3, c4, c5, c6, c7);
  }

  /** `new VoxelizedSource()` allocates the node it returns and every node its fields hold. */
  twostate lemma VoxelizedSourceFresh(new n: Node, new c1: Node, new c2: Node, new c3: Node,
      new c4: Node, new c5: Node, new c6: Node, new c7: Node)
    requires fresh(n) && fresh(c1) && fresh(c2) && fresh(c3) && fresh(c4) && fresh(c5) &&
      fresh(c6) && fresh(c7)
    requires n.fields == VoxelizedSourceFields(c1, c2, c3, c4, c5, c6, c7)
    ensures fresh(NodeAndChildren(n))
  {
    VoxelizedSourceChildren(c1, c2, c3, c4, c5, c6, c7);
  }

  /** `new VoxelizedSource()`. */
  method NewVoxelizedSource() returns (n: Node)
    ensures fresh(NodeAndChildren(n)) && DefaultNode(n, VoxelizedSource)
    ensures
      exists c1: Node, c2: Node, c3: Node, c4: Node, c5: Node, c6: Node, c7: Node ::
        n.fields == VoxelizedSourceFields(c1, c2, c3, c4, c5, c6, c7)
  {
    var c1 := NewVec3();
    var c2 := NewValue();
    var c3 := NewValue();
    var c4 := NewValue();
    var c5 := NewValue();
    var c6 := NewValue();
    var c7 := NewValue();
    n := new Node(VoxelizedSource, VoxelizedSourceFields(c1, c2, c3, c4, c5, c6, c7));
    VoxelizedSourceFresh(n, c1, c2, c3, c4, c5, c6, c7);
    VoxelizedSourceDefault(n, c1, c2, c3, c4, c5, c6, c7);
  }

  /** The fields `new LinearTranslator()` stores. */
  function LinearTranslatorFields(): map<string, JsValue>
  {
    map[
      "insert" := Bool(false),
      "scale" := Bool(false)]
  }

  /** The fields `new LinearTranslator()` stores conform to `LinearTranslator.input_type`. */
  lemma LinearTranslatorConforms()
    ensures Conforms(LinearTranslator, LinearTranslatorFields(), true)
  {
    forall key
      ensures InputType(LinearTranslator, key) ==
        Corrected(LinearTranslator, key, LinearTranslatorInputType(key))
    {
      InputTypeOfLinearTranslator(key);
    }
  }

  /** The fields of `new LinearTranslator()` hold no node, and so share none. */
  lemma LinearTranslatorChildren()
    ensures ChildNodes(LinearTranslatorFields()) == {}
    ensures Unshared(LinearTranslatorFields())
  {
  }

  /** A node that holds the fields of `new LinearTranslator()`, and whose child nodes
      are built for it and are not the node itself, is what `new LinearTranslator()` builds. */
  lemma LinearTranslatorDefault(n: Node)
    requires n.cls == LinearTranslator && n.fields == LinearTranslatorFields()
    ensures DefaultNode(n, LinearTranslator)
    ensures ChildNodes(n.fields) == {}
  {
    LinearTranslatorConforms();
    LinearTranslatorChildren();
  }

  /** `new LinearTranslator()`. */
  method NewLinearTranslator() returns (n: Node)
    ensures fresh(NodeAndChildren(n)) && DefaultNode(n, LinearTranslator)
    ensures n.fields == LinearTranslatorFields()
  {
    n := new Node(LinearTranslator, LinearTranslatorFields());
    LinearTranslatorDefault(n);
  }

  /** The fields `new RangeTranslator()` stores. */
  function RangeTranslatorFields(): map<string, JsValue>
  {
    map[
      "insert" := Bool(false),
      "read_table" := Str(""),
      "describe" := Bool(false)]
  }

  /** The keys `new RangeTranslator()` stores are the keys `RangeTranslator.input_type` describes.
      */
  lemma RangeTranslatorKeys()
    ensures var f := RangeTranslatorFields();
      forall key :: key in f <==> Corrected(RangeTranslator, key,
          RangeTranslatorInputType(key)).Some?
  {
  }

  /** Each field `new RangeTranslator()` stores holds the initial value of its descriptor. */
  lemma RangeTranslatorFieldsFit()
    ensures var f := RangeTranslatorFields();
      forall key :: key in f ==>
        var d := Corrected(RangeTranslator, key, RangeTranslatorInputType(key));
        d.Some? && FieldFits(RangeTranslator, key, f[key], d.value, true)
  {
  }

  /** The fields `new RangeTranslator()` stores conform to `RangeTranslator.input_type`. */
  lemma RangeTranslatorConforms()
    ensures Conforms(RangeTranslator, RangeTranslatorFields(), true)
  {
    forall key
      ensures InputType(RangeTranslator, key) ==
        Corrected(RangeTranslator, key, RangeTranslatorInputType(key))
    {
      InputTypeOfRangeTranslator(key);
    }
    RangeTranslatorKeys();
    RangeTranslatorFieldsFit();
  }

  /** The fields of `new RangeTranslator()` hold no node, and so share none. */
  lemma RangeTranslatorChildren()
    ensures ChildNodes(RangeTranslatorFields()) == {}
    ensures Unshared(RangeTranslatorFields())
  {
  }

  /** A node that holds the fields of `new RangeTranslator()`, and whose child nodes
      are built for it and are not the node itself, is what `new RangeTranslator()` builds. */
  lemma RangeTranslatorDefault(n: Node)
    requires n.cls == RangeTranslator && n.fields == RangeTranslatorFields()
    ensures DefaultNode(n, RangeTranslator)
    ensures ChildNodes(n.fields) == {}
  {
    RangeTranslatorConforms();
    RangeTranslatorChildren();
  }

  /** `new RangeTranslator()`. */
  method NewRangeTranslator() returns (n: Node)
    ensures fresh(NodeAndChildren(n)) && DefaultNode(n, RangeTranslator)
    ensures n.fields == RangeTranslatorFields()
  {
    n := new Node(RangeTranslator, RangeTranslatorFields());
    RangeTranslatorDefault(n);
  }

  /** The fields `new DataOutput()` stores, given the nodes it builds for them. */
  function DataOutputFields(c1: Node, c2: Node, c3: Node, c4: Node, c5: Node, c6: Node, c7: Node,
      c8: Node): map<string, JsValue>
  {
    map[
      "ascii" := Ref(c1),
      "root" := Ref(c2),
      "interfile" := Ref(c3),
      "sinogram" := Ref(c4),
      "sinoaccel" := Ref(c5),
      "ecat7" := Ref(c6),
      "lmf" := Ref(c7),
      "imageCT" := Ref(c8)]
  }

  /** The keys `new DataOutput()` stores are the keys `DataOutput.input_type` describes. */
  lemma DataOutputKeys(c1: Node, c2: Node, c3: Node, c4: Node, c5: Node, c6: Node, c7: Node,
      c8: Node)
    ensures var f := DataOutputFields(c1, c2, c3, c4, c5, c6, c7, c8);
      forall key :: key in f <==> Corrected(DataOutput, key, DataOutputInputType(key)).Some?
  {
  }

  /** Each field `new DataOutput()` stores holds the initial value of its descriptor. */
  lemma DataOutputFieldsFit(c1: Node, c2: Node, c3: Node, c4: Node, c5: Node, c6: Node, c7: Node,
      c8: Node)
    requires c1.cls == Ascii && c2.cls == Root && c3.cls == Interfile && c4.cls == Sinogram &&
      c5.cls == Sinogram && c6.cls == Ecat7 && c7.cls == Lmf && c8.cls == ImageCT
    ensures var f := DataOutputFields(c1, c2, c3, c4, c5, c6, c7, c8);
      forall key :: key in f ==>
        var d := Corrected(DataOutput, key, DataOutputInputType(key));
        d.Some? && FieldFits(DataOutput, key, f[key], d.value, true)
  {
  }

  /** The fields `new DataOutput()` stores conform to `DataOutput.input_type`. */
  lemma DataOutputConforms(c1: Node, c2: Node, c3: Node, c4: Node, c5: Node, c6: Node, c7: Node,
      c8: Node)
    requires c1.cls == Ascii && c2.cls == Root && c3.cls == Interfile && c4.cls == Sinogram &&
      c5.cls == Sinogram && c6.cls == Ecat7 && c7.cls == Lmf && c8.cls == ImageCT
    ensures Conforms(DataOutput, DataOutputFields(c1, c2, c3, c4, c5, c6, c7, c8), true)
  {
    DataOutputKeys(c1, c2, c3, c4, c5, c6, c7, c8);
    DataOutputFieldsFit(c1, c2, c3, c4, c5, c6, c7, c8);
  }

  /** The nodes the fields of `new DataOutput()` hold are the ones it builds for them. */
  lemma DataOutputChildren(c1: Node, c2: Node, c3: Node, c4: Node, c5: Node, c6: Node, c7: Node,
      c8: Node)
    ensures forall x :: x in ChildNodes(DataOutputFields(c1, c2, c3, c4, c5, c6, c7, c8)) ==>
      x == c1 || x == c2 || x == c3 || x == c4 || x == c5 || x == c6 || x == c7 || x == c8
  {
  }

  /** The field of `new DataOutput()` that holds each node it builds. */
  function DataOutputOwner(c1: Node, c2: Node, c3: Node, c4: Node, c5: Node, c6: Node, c7: Node,
      c8: Node): map<Node, string>
  {
    map[c1 := "ascii", c2 := "root", c3 := "interfile", c4 := "sinogram", c5 := "sinoaccel",
      c6 := "ecat7", c7 := "lmf", c8 := "imageCT"]
  }

  /** The fields `ascii`, `root`, `interfile` of `new DataOutput()` hold only nodes it gives to
      them. */
  lemma DataOutputOwned1(c1: Node, c2: Node, c3: Node, c4: Node, c5: Node, c6: Node, c7: Node,
      c8: Node)
    requires c1.cls == Ascii && c2.cls == Root && c3.cls == Interfile && c4.cls == Sinogram &&
      c5.cls == Sinogram && c6.cls == Ecat7 && c7.cls == Lmf && c8.cls == ImageCT && c4 != c5
    ensures var f := DataOutputFields(c1, c2, c3, c4, c5, c6, c7, c8);
      forall key :: key in f && key in ["ascii", "root", "interfile"] ==>
        OwnedBy(f[key], key, DataOutputOwner(c1, c2, c3, c4, c5, c6, c7, c8))
  {
  }

  /** The fields `sinogram`, `sinoaccel`, `ecat7` of `new DataOutput()` hold only nodes it gives to
      them. */
  lemma DataOutputOwned2(c1: Node, c2: Node, c3: Node, c4: Node, c5: Node, c6: Node, c7: Node,
      c8: Node)
    requires c1.cls == Ascii && c2.cls == Root && c3.cls == Interfile && c4.cls == Sinogram &&
      c5.cls == Sinogram && c6.cls == Ecat7 && c7.cls == Lmf && c8.cls == ImageCT && c4 != c5
    ensures var f := DataOutputFields(c1, c2, c3, c4, c5, c6, c7, c8);
      forall key :: key in f && key in ["sinogram", "sinoaccel", "ecat7"] ==>
        OwnedBy(f[key], key, DataOutputOwner(c1, c2, c3, c4, c5, c6, c7, c8))
  {
  }

  /** The fields `lmf`, `imageCT` of `new DataOutput()` hold only nodes it gives to them. */
  lemma DataOutputOwned3(c1: Node, c2: Node, c3: Node, c4: Node, c5: Node, c6: Node, c7: Node,
      c8: Node)
    requires c1.cls == Ascii && c2.cls == Root && c3.cls == Interfile && c4.cls == Sinogram &&
      c5.cls == Sinogram && c6.cls == Ecat7 && c7.cls == Lmf && c8.cls == ImageCT && c4 != c5
    ensures var f := DataOutputFields(c1, c2, c3, c4, c5, c6, c7, c8);
      forall key :: key in f && key in ["lmf", "imageCT"] ==>
        OwnedBy(f[key], key, DataOutputOwner(c1, c2, c3, c4, c5, c6, c7, c8))
  {
  }

  /** Each node the fields of `new DataOutput()` hold is held at one place only. */
  lemma DataOutputUnshared(c1: Node, c2: Node, c3: Node, c4: Node, c5: Node, c6: Node, c7: Node,
      c8: Node)
    requires c1.cls == Ascii && c2.cls == Root && c3.cls == Interfile && c4.cls == Sinogram &&
      c5.cls == Sinogram && c6.cls == Ecat7 && c7.cls == Lmf && c8.cls == ImageCT && c4 != c5
    ensures Unshared(DataOutputFields(c1, c2, c3, c4, c5, c6, c7, c8))
  {
    DataOutputOwned1(c1, c2, c3, c4, c5, c6, c7, c8);
    DataOutputOwned2(c1, c2, c3, c4, c5, c6, c7, c8);
    DataOutputOwned3(c1, c2, c3, c4, c5, c6, c7, c8);
    UnsharedByOwner(DataOutputFields(c1, c2, c3, c4, c5, c6, c7, c8),
      DataOutputOwner(c1, c2, c3, c4, c5, c6, c7, c8));
  }

  /** A node that holds the fields of `new DataOutput()`, and whose child nodes
      are built for it and are not the node itself, is what `new DataOutput()` builds. */
  lemma DataOutputDefault(n: Node, c1: Node, c2: Node, c3: Node, c4: Node, c5: Node, c6: Node,
      c7: Node, c8: Node)
    requires n.cls == DataOutput &&
      n.fields == DataOutputFields(c1, c2, c3, c4, c5, c6, c7, c8)
    requires BuiltChild(n, c1) && BuiltChild(n, c2) && BuiltChild(n, c3) && BuiltChild(n, c4) &&
      BuiltChild(n, c5) && BuiltChild(n, c6) && BuiltChild(n, c7) && BuiltChild(n, c8) &&
      c1.cls == Ascii && c2.cls == Root && c3.cls == Interfile && c4.cls == Sinogram &&
      c5.cls == Sinogram && c6.cls == Ecat7 && c7.cls == Lmf && c8.cls == ImageCT && c4 != c5
    ensures DefaultNode(n, DataOutput)
    ensures forall x :: x in ChildNodes(n.fields) ==>
      x == c1 || x == c2 || x == c3 || x == c4 || x == c5 || x == c6 || x == c7 || x == c8
  {
    DataOutputConforms(c1, c2, c3, c4, c5, c6, c7, c8);
    DataOutputChildren(c1, c2, c3, c4, c5, c6, c7, c8);
    DataOutputUnshared(c1, c2, c3, c4, c5, c6, c7, c8);
  }

  /** `new DataOutput()` allocates the node it returns and every node its fields hold. */
  twostate lemma DataOutputFresh(new n: Node, new c1: Node, new c2: Node, new c3: Node,
      new c4: Node, new c5: Node, new c6: Node, new c7: Node, new c8: Node)
    requires fresh(n) && fresh(c1) && fresh(c2) && fresh(c3) && fresh(c4) && fresh(c5) &&
      fresh(c6) && fresh(c7) && fresh(c8)
    requires n.fields == DataOutputFields(c1, c2, c3, c4, c5, c6, c7, c8)
    ensures fresh(NodeAndChildren(n))
  {
    DataOutputChildren(c1, c2, c3, c4, c5, c6, c7, c8);
  }

  /** `new DataOutput()`. */
  method NewDataOutput() returns (n: Node)
    ensures fresh(NodeAndChildren(n)) && DefaultNode(n, DataOutput)
    ensures
      exists c1: Node, c2: Node, c3: Node, c4: Node, c5: Node, c6: Node, c7: Node, c8: Node ::
        n.fields == DataOutputFields(c1, c2, c3, c4, c5, c6, c7, c8)
  {
    var c1 := NewAscii();
    var c2 := NewRoot();
    var c3 := NewInterfile();
    var c4 := NewSinogram();
    var c5 := NewSinogram();
    var c6 := NewEcat7();
    var c7 := NewLmf();
    var c8 := NewImageCT();
    n := new Node(DataOutput, DataOutputFields(c1, c2, c3, c4, c5, c6, c7, c8));
    DataOutputFresh(n, c1, c2, c3, c4, c5, c6, c7, c8);
    DataOutputDefault(n, c1, c2, c3, c4, c5, c6, c7, c8);
  }

  /** The fields `new Ascii()` stores. */
  function AsciiFields(): map<string, JsValue>
  {
    map[
      "enable" := Bool(false),
      "file_name" := Str(""),
      "out_file_hits_flag" := Bool(false),
      "out_file_singles_flag" := Bool(false),
      "out_file_coincidences_flag" := Bool(false),
      "coincidence_mask" := Arr([Bool(false), Bool(false), Bool(false), Bool(false), Bool(false),
          Bool(false)]),
      "single_mask" := Arr([Bool(false), Bool(false), Bool(false), Bool(false)]),
      "out_file_size_limit" := Null]
  }

  /** The keys `new Ascii()` stores are the keys `Ascii.input_type` describes. */
  lemma AsciiKeys()
    ensures var f := AsciiFields();
      forall key :: key in f <==> Corrected(Ascii, key, AsciiInputType(key)).Some?
  {
  }

  /** Each field `new Ascii()` stores holds the initial value of its descriptor. */
  lemma AsciiFieldsFit()
    ensures var f := AsciiFields();
      forall key :: key in f ==>
        var d := Corrected(Ascii, key, AsciiInputType(key));
        d.Some? && FieldFits(Ascii, key, f[key], d.value, true)
  {
  }

  /** The fields `new Ascii()` stores conform to `Ascii.input_type`. */
  lemma AsciiConforms()
    ensures Conforms(Ascii, AsciiFields(), true)
  {
    forall key
      ensures InputType(Ascii, key) == Corrected(Ascii, key, AsciiInputType(key))
    {
      InputTypeOfAscii(key);
    }
    AsciiKeys();
    AsciiFieldsFit();
  }

  /** The fields of `new Ascii()` hold no node, and so share none. */
  lemma AsciiChildren()
    ensures ChildNodes(AsciiFields()) == {}
    ensures Unshared(AsciiFields())
  {
  }

  /** A node that holds the fields of `new Ascii()`, and whose child nodes
      are built for it and are not the node itself, is what `new Ascii()` builds. */
  lemma AsciiDefault(n: Node)
    requires n.cls == Ascii && n.fields == AsciiFields()
    ensures DefaultNode(n, Ascii)
    ensures ChildNodes(n.fields) == {}
  {
    AsciiConforms();
    AsciiChildren();
  }

  /** `new Ascii()`. */
  method NewAscii() returns (n: Node)
    ensures fresh(NodeAndChildren(n)) && DefaultNode(n, Ascii)
    ensures n.fields == AsciiFields()
  {
    n := new Node(Ascii, AsciiFields());
    AsciiDefault(n);
  }

  /** The fields `new Root()` stores. */
  function RootFields(): map<string, JsValue>
  {
    map[
      "enable" := Bool(false),
      "file_name" := Str(""),
      "root_hit_flag" := Bool(false),
      "root_singles_flag" := Bool(false),
      "root_coincidences_flag" := Bool(false),
      "root_ntuple_flag" := Bool(false),
      "out_file_singles_adder_flag" := Bool(false),
      "out_file_singles_readout_flag" := Bool(false),
      "out_file_singles_spblurring_flag" := Bool(false),
      "out_file_singles_blurring_flag" := Bool(false),
      "out_file_singles_thresholder_flag" := Bool(false),
      "out_file_singles_upholder_flag" := Bool(false)]
  }

  /** The keys `new Root()` stores are the keys `Root.input_type` describes. */
  lemma RootKeys()
    ensures var f := RootFields();
      forall key :: key in f <==> Corrected(Root, key, RootInputType(key)).Some?
  {
  }

  /** The fields `enable`, `file_name`, `root_hit_flag`, `root_singles_flag`,
      `root_coincidences_flag` that `new Root()` stores hold the initial values of their
      descriptors. */
  lemma RootFieldsFit1()
    ensures var f := RootFields();
      forall key :: (key in f && key in ["enable", "file_name", "root_hit_flag",
        "root_singles_flag", "root_coincidences_flag"]) ==>
        var d := Corrected(Root, key, RootInputType(key));
        d.Some? && FieldFits(Root, key, f[key], d.value, true)
  {
  }

  /** The fields `root_ntuple_flag`, `out_file_singles_adder_flag`, `out_file_singles_readout_flag`,
      `out_file_singles_spblurring_flag`, `out_file_singles_blurring_flag` that `new Root()` stores
      hold the initial values of their descriptors. */
  lemma RootFieldsFit2()
    ensures var f := RootFields();
      forall key :: (key in f && key in ["root_ntuple_flag", "out_file_singles_adder_flag",
        "out_file_singles_readout_flag", "out_file_singles_spblurring_flag",
        "out_file_singles_blurring_flag"]) ==>
        var d := Corrected(Root, key, RootInputType(key));
        d.Some? && FieldFits(Root, key, f[key], d.value, true)
  {
  }

  /** The fields `out_file_singles_thresholder_flag`, `out_file_singles_upholder_flag` that `new
      Root()` stores hold the initial values of their descriptors. */
  lemma RootFieldsFit3()
    ensures var f := RootFields();
      forall key :: (key in f && key in ["out_file_singles_thresholder_flag",
        "out_file_singles_upholder_flag"]) ==>
        var d := Corrected(Root, key, RootInputType(key));
        d.Some? && FieldFits(Root, key, f[key], d.value, true)
  {
  }

  /** Each field `new Root()` stores holds the initial value of its descriptor. */
  lemma RootFieldsFit()
    ensures var f := RootFields();
      forall key :: key in f ==>
        var d := Corrected(Root, key, RootInputType(key));
        d.Some? && FieldFits(Root, key, f[key], d.value, true)
  {
    RootFieldsFit1();
    RootFieldsFit2();
    RootFieldsFit3();
  }

  /** The fields `new Root()` stores conform to `Root.input_type`. */
  lemma RootConforms()
    ensures Conforms(Root, RootFields(), true)
  {
    forall key
      ensures InputType(Root, key) == Corrected(Root, key, RootInputType(key))
    {
      InputTypeOfRoot(key);
    }
    RootKeys();
    RootFieldsFit();
  }

  /** The fields of `new Root()` hold no node, and so share none. */
  lemma RootChildren()
    ensures ChildNodes(RootFields()) == {}
    ensures Unshared(RootFields())
  {
  }

  /** A node that holds the fields of `new Root()`, and whose child nodes
      are built for it and are not the node itself, is what `new Root()` builds. */
  lemma RootDefault(n: Node)
    requires n.cls == Root && n.fields == RootFields()
    ensures DefaultNode(n, Root)
    ensures ChildNodes(n.fields) == {}
  {
    RootConforms();
    RootChildren();
  }

  /** `new Root()`. */
  method NewRoot() returns (n: Node)
    ensures fresh(NodeAndChildren(n)) && DefaultNode(n, Root)
    ensures n.fields == RootFields()
  {
    n := new Node(Root, RootFields());
    RootDefault(n);
  }

  /** The fields `new Interfile()` stores, given the nodes it builds for them. */
  function InterfileFields(c1: Node, c2: Node): map<string, JsValue>
  {
    map[
      "enable" := Bool(false),
      "file_name" := Str(""),
      "projection_plane" := Str(""),
      "pixel_size" := Arr([Ref(c1), Ref(c2)]),
      "pixel_number" := Arr([Null, Null])]
  }

  /** The keys `new Interfile()` stores are the keys `Interfile.input_type` describes. */
  lemma InterfileKeys(c1: Node, c2: Node)
    ensures var f := InterfileFields(c1, c2);
      forall key :: key in f <==> Corrected(Interfile, key, InterfileInputType(key)).Some?
  {
  }

  /** Each field `new Interfile()` stores holds the initial value of its descriptor. */
  lemma InterfileFieldsFit(c1: Node, c2: Node)
    requires c1.cls == Value && c2.cls == Value
    ensures var f := InterfileFields(c1, c2);
      forall key :: key in f ==>
        var d := Corrected(Interfile, key, InterfileInputType(key));
        d.Some? && FieldFits(Interfile, key, f[key], d.value, true)
  {
  }

  /** The fields `new Interfile()` stores conform to `Interfile.input_type`. */
  lemma InterfileConforms(c1: Node, c2: Node)
    requires c1.cls == Value && c2.cls == Value
    ensures Conforms(Interfile, InterfileFields(c1, c2), true)
  {
    forall key
      ensures InputType(Interfile, key) == Corrected(Interfile, key, InterfileInputType(key))
    {
      InputTypeOfInterfile(key);
    }
    InterfileKeys(c1, c2);
    InterfileFieldsFit(c1, c2);
  }

  /** The nodes the fields of `new Interfile()` hold are the ones it builds for them. */
  lemma InterfileChildren(c1: Node, c2: Node)
    ensures forall x :: x in ChildNodes(InterfileFields(c1, c2)) ==>
      x == c1 || x == c2
  {
  }

  /** The field of `new Interfile()` that holds each node it builds. */
  function InterfileOwner(c1: Node, c2: Node): map<Node, string>
  {
    map[c1 := "pixel_size", c2 := "pixel_size"]
  }

  /** The fields `enable`, `file_name`, `projection_plane` of `new Interfile()` hold only nodes it
      gives to them. */
  lemma InterfileOwned1(c1: Node, c2: Node)
    requires c1.cls == Value && c2.cls == Value && c1 != c2
    ensures var f := InterfileFields(c1, c2);
      forall key :: key in f && key in ["enable", "file_name", "projection_plane"] ==>
        OwnedBy(f[key], key, InterfileOwner(c1, c2))
  {
  }

  /** The fields `pixel_size`, `pixel_number` of `new Interfile()` hold only nodes it gives to
      them. */
  lemma InterfileOwned2(c1: Node, c2: Node)
    requires c1.cls == Value && c2.cls == Value && c1 != c2
    ensures var f := InterfileFields(c1, c2);
      forall key :: key in f && key in ["pixel_size", "pixel_number"] ==>
        OwnedBy(f[key], key, InterfileOwner(c1, c2))
  {
  }

  /** Each node the fields of `new Interfile()` hold is held at one place only. */
  lemma InterfileUnshared(c1: Node, c2: Node)
    requires c1.cls == Value && c2.cls == Value && c1 != c2
    ensures Unshared(InterfileFields(c1, c2))
  {
    InterfileOwned1(c1, c2);
    InterfileOwned2(c1, c2);
    UnsharedByOwner(InterfileFields(c1, c2), InterfileOwner(c1, c2));
  }

  /** A node that holds the fields of `new Interfile()`, and whose child nodes
      are built for it and are not the node itself, is what `new Interfile()` builds. */
  lemma InterfileDefault(n: Node, c1: Node, c2: Node)
    requires n.cls == Interfile && n.fields == InterfileFields(c1, c2)
    requires BuiltChild(n, c1) && BuiltChild(n, c2) && c1.cls == Value && c2.cls == Value &&
      c1 != c2
    ensures DefaultNode(n, Interfile)
    ensures forall x :: x in ChildNodes(n.fields) ==> x == c1 || x == c2
  {
    InterfileConforms(c1, c2);
    InterfileChildren(c1, c2);
    InterfileUnshared(c1, c2);
  }

  /** `new Interfile()` allocates the node it returns and every node its fields hold. */
  twostate lemma InterfileFresh(new n: Node, new c1: Node, new c2: Node)
    requires fresh(n) && fresh(c1) && fresh(c2)
    requires n.fields == InterfileFields(c1, c2)
    ensures fresh(NodeAndChildren(n))
  {
    InterfileChildren(c1, c2);
  }

  /** `new Interfile()`. */
  method NewInterfile() returns (n: Node)
    ensures fresh(NodeAndChildren(n)) && DefaultNode(n, Interfile)
    ensures exists c1: Node, c2: Node :: n.fields == InterfileFields(c1, c2)
  {
    var c1 := NewValue();
    var c2 := NewValue();
    n := new Node(Interfile, InterfileFields(c1, c2));
    InterfileFresh(n, c1, c2);
    InterfileDefault(n, c1, c2);
  }

  /** The fields `new Sinogram()` stores. */
  function SinogramFields(): map<string, JsValue>
  {
    map[
      "enable" := Bool(false),
      "file_name" := Str(""),
      "radial_bins" := Null,
      "trues_only" := Bool(false),
      "raw_output_enable" := Bool(false)]
  }

  /** The keys `new Sinogram()` stores are the keys `Sinogram.input_type` describes. */
  lemma SinogramKeys()
    ensures var f := SinogramFields();
      forall key :: key in f <==> Corrected(Sinogram, key, SinogramInputType(key)).Some?
  {
  }

  /** Each field `new Sinogram()` stores holds the initial value of its descriptor. */
  lemma SinogramFieldsFit()
    ensures var f := SinogramFields();
      forall key :: key in f ==>
        var d := Corrected(Sinogram, key, SinogramInputType(key));
        d.Some? && FieldFits(Sinogram, key, f[key], d.value, true)
  {
  }

  /** The fields `new Sinogram()` stores conform to `Sinogram.input_type`. */
  lemma SinogramConforms()
    ensures Conforms(Sinogram, SinogramFields(), true)
  {
    forall key
      ensures InputType(Sinogram, key) == Corrected(Sinogram, key, SinogramInputType(key))
    {
      InputTypeOfSinogram(key);
    }
    SinogramKeys();
    SinogramFieldsFit();
  }

  /** The fields of `new Sinogram()` hold no node, and so share none. */
  lemma SinogramChildren()
    ensures ChildNodes(SinogramFields()) == {}
    ensures Unshared(SinogramFields())
  {
  }

  /** A node that holds the fields of `new Sinogram()`, and whose child nodes
      are built for it and are not the node itself, is what `new Sinogram()` builds. */
  lemma SinogramDefault(n: Node)
    requires n.cls == Sinogram && n.fields == SinogramFields()
    ensures DefaultNode(n, Sinogram)
    ensures ChildNodes(n.fields) == {}
  {
    SinogramConforms();
    SinogramChildren();
  }

  /** `new Sinogram()`. */
  method NewSinogram() returns (n: Node)
    ensures fresh(NodeAndChildren(n)) && DefaultNode(n, Sinogram)
    ensures n.fields == SinogramFields()
  {
    n := new Node(Sinogram, SinogramFields());
    SinogramDefault(n);
  }

  /** The fields `new Ecat7()` stores. */
  function Ecat7Fields(): map<string, JsValue>
  {
    map[
      "enable" := Bool(false),
      "file_name" := Str(""),
      "maxringdiff" := Null,
      "span" := Null,
      "mashing" := Null,
      "system" := Null]
  }

  /** The keys `new Ecat7()` stores are the keys `Ecat7.input_type` describes. */
  lemma Ecat7Keys()
    ensures var f := Ecat7Fields();
      forall key :: key in f <==> Corrected(Ecat7, key, Ecat7InputType(key)).Some?
  {
  }

  /** Each field `new Ecat7()` stores holds the initial value of its descriptor. */
  lemma Ecat7FieldsFit()
    ensures var f := Ecat7Fields();
      forall key :: key in f ==>
        var d := Corrected(Ecat7, key, Ecat7InputType(key));
        d.Some? && FieldFits(Ecat7, key, f[key], d.value, true)
  {
  }

  /** The fields `new Ecat7()` stores conform to `Ecat7.input_type`. */
  lemma Ecat7Conforms()
    ensures Conforms(Ecat7, Ecat7Fields(), true)
  {
    forall key
      ensures InputType(Ecat7, key) == Corrected(Ecat7, key, Ecat7InputType(key))
    {
      InputTypeOfEcat7(key);
    }
    Ecat7Keys();
    Ecat7FieldsFit();
  }

  /** The fields of `new Ecat7()` hold no node, and so share none. */
  lemma Ecat7Children()
    ensures ChildNodes(Ecat7Fields()) == {}
    ensures Unshared(Ecat7Fields())
  {
  }

  /** A node that holds the fields of `new Ecat7()`, and whose child nodes
      are built for it and are not the node itself, is what `new Ecat7()` builds. */
  lemma Ecat7Default(n: Node)
    requires n.cls == Ecat7 && n.fields == Ecat7Fields()
    ensures DefaultNode(n, Ecat7)
    ensures ChildNodes(n.fields) == {}
  {
    Ecat7Conforms();
    Ecat7Children();
  }

  /** `new Ecat7()`. */
  method NewEcat7() returns (n: Node)
    ensures fresh(NodeAndChildren(n)) && DefaultNode(n, Ecat7)
    ensures n.fields == Ecat7Fields()
  {
    n := new Node(Ecat7, Ecat7Fields());
    Ecat7Default(n);
  }

  /** The fields `new Lmf()` stores. */
  function LmfFields(): map<string, JsValue>
  {
    map[
      "enable" := Bool(false),
      "file_name" := Str(""),
      "detector_id_bool" := Bool(false),
      "energy_bool" := Bool(false),
      "gantry_axial_pos_bool" := Bool(false),
      "gantry_angular_pos_bool" := Bool(false),
      "source_pos_bool" := Bool(false),
      "neighbour_bool" := Bool(false),
      "neighbourhood_order" := Bool(false),
      "coincidence_bool" := Bool(false),
      "gate_digi_bool" := Bool(false),
      "compton_bool" := Bool(false),
      "compton_detector_bool" := Bool(false),
      "source_id_bool" := Bool(false),
      "source_xyzpos_bool" := Bool(false),
      "global_xyzpos_bool" := Bool(false),
      "event_id_bool" := Bool(false),
      "run_id_bool" := Bool(false)]
  }

  /** The keys `new Lmf()` stores are the keys `Lmf.input_type` describes. */
  lemma LmfKeys()
    ensures var f := LmfFields();
      forall key :: key in f <==> Corrected(Lmf, key, LmfInputType(key)).Some?
  {
  }

  /** The fields `enable`, `file_name`, `detector_id_bool`, `energy_bool`, `gantry_axial_pos_bool`
      that `new Lmf()` stores hold the initial values of their descriptors. */
  lemma LmfFieldsFit1()
    ensures var f := LmfFields();
      forall key :: (key in f && key in ["enable", "file_name", "detector_id_bool", "energy_bool",
        "gantry_axial_pos_bool"]) ==>
        var d := Corrected(Lmf, key, LmfInputType(key));
        d.Some? && FieldFits(Lmf, key, f[key], d.value, true)
  {
  }

  /** The fields `gantry_angular_pos_bool`, `source_pos_bool`, `neighbour_bool`,
      `neighbourhood_order`, `coincidence_bool` that `new Lmf()` stores hold the initial values of
      their descriptors. */
  lemma LmfFieldsFit2()
    ensures var f := LmfFields();
      forall key :: (key in f && key in ["gantry_angular_pos_bool", "source_pos_bool",
        "neighbour_bool", "neighbourhood_order", "coincidence_bool"]) ==>
        var d := Corrected(Lmf, key, LmfInputType(key));
        d.Some? && FieldFits(Lmf, key, f[key], d.value, true)
  {
  }

  /** The fields `gate_digi_bool`, `compton_bool`, `compton_detector_bool`, `source_id_bool`,
      `source_xyzpos_bool` that `new Lmf()` stores hold the initial values of their descriptors. */
  lemma LmfFieldsFit3()
    ensures var f := LmfFields();
      forall key :: (key in f && key in ["gate_digi_bool", "compton_bool", "compton_detector_bool",
        "source_id_bool", "source_xyzpos_bool"]) ==>
        var d := Corrected(Lmf, key, LmfInputType(key));
        d.Some? && FieldFits(Lmf, key, f[key], d.value, true)
  {
  }

  /** The fields `global_xyzpos_bool`, `event_id_bool`, `run_id_bool` that `new Lmf()` stores hold
      the initial values of their descriptors. */
  lemma LmfFieldsFit4()
    ensures var f := LmfFields();
      forall key :: key in f && key in ["global_xyzpos_bool", "event_id_bool", "run_id_bool"] ==>
        var d := Corrected(Lmf, key, LmfInputType(key));
        d.Some? && FieldFits(Lmf, key, f[key], d.value, true)
  {
  }

  /** Each field `new Lmf()` stores holds the initial value of its descriptor. */
  lemma LmfFieldsFit()
    ensures var f := LmfFields();
      forall key :: key in f ==>
        var d := Corrected(Lmf, key, LmfInputType(key));
        d.Some? && FieldFits(Lmf, key, f[key], d.value, true)
  {
    LmfFieldsFit1();
    LmfFieldsFit2();
    LmfFieldsFit3();
    LmfFieldsFit4();
  }

  /** The fields `new Lmf()` stores conform to `Lmf.input_type`. */
  lemma LmfConforms()
    ensures Conforms(Lmf, LmfFields(), true)
  {
    forall key
      ensures InputType(Lmf, key) == Corrected(Lmf, key, LmfInputType(key))
    {
      InputTypeOfLmf(key);
    }
    LmfKeys();
    LmfFieldsFit();
  }

  /** The fields of `new Lmf()` hold no node, and so share none. */
  lemma LmfChildren()
    ensures ChildNodes(LmfFields()) == {}
    ensures Unshared(LmfFields())
  {
  }

  /** A node that holds the fields of `new Lmf()`, and whose child nodes
      are built for it and are not the node itself, is what `new Lmf()` builds. */
  lemma LmfDefault(n: Node)
    requires n.cls == Lmf && n.fields == LmfFields()
    ensures DefaultNode(n, Lmf)
    ensures ChildNodes(n.fields) == {}
  {
    LmfConforms();
    LmfChildren();
  }

  /** `new Lmf()`. */
  method NewLmf() returns (n: Node)
    ensures fresh(NodeAndChildren(n)) && DefaultNode(n, Lmf)
    ensures n.fields == LmfFields()
  {
    n := new Node(Lmf, LmfFields());
    LmfDefault(n);
  }

  /** The fields `new ImageCT()` stores. */
  function ImageCTFields(): map<string, JsValue>
  {
    map[
      "enable" := Bool(false),
      "file_name" := Str(""),
      "num_pixel" := Arr([Null, Null]),
      "vrt_factor" := Null,
      "start_seed" := Null]
  }

  /** The keys `new ImageCT()` stores are the keys `ImageCT.input_type` describes. */
  lemma ImageCTKeys()
    ensures var f := ImageCTFields();
      forall key :: key in f <==> Corrected(ImageCT, key, ImageCTInputType(key)).Some?
  {
  }

  /** Each field `new ImageCT()` stores holds the initial value of its descriptor. */
  lemma ImageCTFieldsFit()
    ensures var f := ImageCTFields();
      forall key :: key in f ==>
        var d := Corrected(ImageCT, key, ImageCTInputType(key));
        d.Some? && FieldFits(ImageCT, key, f[key], d.value, true)
  {
  }

  /** The fields `new ImageCT()` stores conform to `ImageCT.input_type`. */
  lemma ImageCTConforms()
    ensures Conforms(ImageCT, ImageCTFields(), true)
  {
    forall key
      ensures InputType(ImageCT, key) == Corrected(ImageCT, key, ImageCTInputType(key))
    {
      InputTypeOfImageCT(key);
    }
    ImageCTKeys();
    ImageCTFieldsFit();
  }

  /** The fields of `new ImageCT()` hold no node, and so share none. */
  lemma ImageCTChildren()
    ensures ChildNodes(ImageCTFields()) == {}
    ensures Unshared(ImageCTFields())
  {
  }

  /** A node that holds the fields of `new ImageCT()`, and whose child nodes
      are built for it and are not the node itself, is what `new ImageCT()` builds. */
  lemma ImageCTDefault(n: Node)
    requires n.cls == ImageCT && n.fields == ImageCTFields()
    ensures DefaultNode(n, ImageCT)
    ensures ChildNodes(n.fields) == {}
  {
    ImageCTConforms();
    ImageCTChildren();
  }

  /** `new ImageCT()`. */
  method NewImageCT() returns (n: Node)
    ensures fresh(NodeAndChildren(n)) && DefaultNode(n, ImageCT)
    ensures n.fields == ImageCTFields()
  {
    n := new Node(ImageCT, ImageCTFields());
    ImageCTDefault(n);
  }

  /** The fields `new Acquisition()` stores, given the nodes it builds for them. */
  function AcquisitionFields(c1: Node, c2: Node): map<string, JsValue>
  {
    map[
      "total_number_of_primaries" := Null,
      "number_of_primaries_perrun" := Null,
      "time_slice" := Undefined,
      "time_start" := Ref(c1),
      "time_stop" := Ref(c2),
      "engine_seed" := Undefined,
      "engine_name" := Str(""),
      "verbose" := Null]
  }

  /** The keys `new Acquisition()` stores are the keys `Acquisition.input_type` describes. */
  lemma AcquisitionKeys(c1: Node, c2: Node)
    ensures var f := AcquisitionFields(c1, c2);
      forall key :: key in f <==> Corrected(Acquisition, key, AcquisitionInputType(key)).Some?
  {
  }

  /** Each field `new Acquisition()` stores holds the initial value of its descriptor. */
  lemma AcquisitionFieldsFit(c1: Node, c2: Node)
    requires c1.cls == Value && c2.cls == Value
    ensures var f := AcquisitionFields(c1, c2);
      forall key :: key in f ==>
        var d := Corrected(Acquisition, key, AcquisitionInputType(key));
        d.Some? && FieldFits(Acquisition, key, f[key], d.value, true)
  {
  }

  /** The fields `new Acquisition()` stores conform to `Acquisition.input_type`. */
  lemma AcquisitionConforms(c1: Node, c2: Node)
    requires c1.cls == Value && c2.cls == Value
    ensures Conforms(Acquisition, AcquisitionFields(c1, c2), true)
  {
    forall key
      ensures InputType(Acquisition, key) == Corrected(Acquisition, key, AcquisitionInputType(key))
    {
      InputTypeOfAcquisition(key);
    }
    AcquisitionKeys(c1, c2);
    AcquisitionFieldsFit(c1, c2);
  }

  /** The nodes the fields of `new Acquisition()` hold are the ones it builds for them. */
  lemma AcquisitionChildren(c1: Node, c2: Node)
    ensures forall x :: x in ChildNodes(AcquisitionFields(c1, c2)) ==>
      x == c1 || x == c2
  {
  }

  /** The field of `new Acquisition()` that holds each node it builds. */
  function AcquisitionOwner(c1: Node, c2: Node): map<Node, string>
  {
    map[c1 := "time_start", c2 := "time_stop"]
  }

  /** The fields `total_number_of_primaries`, `number_of_primaries_perrun`, `time_slice` of `new
      Acquisition()` hold only nodes it gives to them. */
  lemma AcquisitionOwned1(c1: Node, c2: Node)
    requires c1.cls == Value && c2.cls == Value && c1 != c2
    ensures var f := AcquisitionFields(c1, c2);
      forall key :: key in f && key in ["total_number_of_primaries", "number_of_primaries_perrun",
        "time_slice"] ==>
        OwnedBy(f[key], key, AcquisitionOwner(c1, c2))
  {
  }

  /** The fields `time_start`, `time_stop`, `engine_seed` of `new Acquisition()` hold only nodes it
      gives to them. */
  lemma AcquisitionOwned2(c1: Node, c2: Node)
    requires c1.cls == Value && c2.cls == Value && c1 != c2
    ensures var f := AcquisitionFields(c1, c2);
      forall key :: key in f && key in ["time_start", "time_stop", "engine_seed"] ==>
        OwnedBy(f[key], key, AcquisitionOwner(c1, c2))
  {
  }

  /** The fields `engine_name`, `verbose` of `new Acquisition()` hold only nodes it gives to them.
      */
  lemma AcquisitionOwned3(c1: Node, c2: Node)
    requires c1.cls == Value && c2.cls == Value && c1 != c2
    ensures var f := AcquisitionFields(c1, c2);
      forall key :: key in f && key in ["engine_name", "verbose"] ==>
        OwnedBy(f[key], key, AcquisitionOwner(c1, c2))
  {
  }

  /** Each node the fields of `new Acquisition()` hold is held at one place only. */
  lemma AcquisitionUnshared(c1: Node, c2: Node)
    requires c1.cls == Value && c2.cls == Value && c1 != c2
    ensures Unshared(AcquisitionFields(c1, c2))
  {
    AcquisitionOwned1(c1, c2);
    AcquisitionOwned2(c1, c2);
    AcquisitionOwned3(c1, c2);
    UnsharedByOwner(AcquisitionFields(c1, c2), AcquisitionOwner(c1, c2));
  }

  /** A node that holds the fields of `new Acquisition()`, and whose child nodes
      are built for it and are not the node itself, is what `new Acquisition()` builds. */
  lemma AcquisitionDefault(n: Node, c1: Node, c2: Node)
    requires n.cls == Acquisition && n.fields == AcquisitionFields(c1, c2)
    requires BuiltChild(n, c1) && BuiltChild(n, c2) && c1.cls == Value && c2.cls == Value &&
      c1 != c2
    ensures DefaultNode(n, Acquisition)
    ensures forall x :: x in ChildNodes(n.fields) ==> x == c1 || x == c2
  {
    AcquisitionConforms(c1, c2);
    AcquisitionChildren(c1, c2);
    AcquisitionUnshared(c1, c2);
  }

  /** `new Acquisition()` allocates the node it returns and every node its fields hold. */
  twostate lemma AcquisitionFresh(new n: Node, new c1: Node, new c2: Node)
    requires fresh(n) && fresh(c1) && fresh(c2)
    requires n.fields == AcquisitionFields(c1, c2)
    ensures fresh(NodeAndChildren(n))
  {
    AcquisitionChildren(c1, c2);
  }

  /** `new Acquisition()`. */
  method NewAcquisition() returns (n: Node)
    ensures fresh(NodeAndChildren(n)) && DefaultNode(n, Acquisition)
    ensures exists c1: Node, c2: Node :: n.fields == AcquisitionFields(c1, c2)
  {
    var c1 := NewValue();
    var c2 := NewValue();
    n := new Node(Acquisition, AcquisitionFields(c1, c2));
    AcquisitionFresh(n, c1, c2);
    AcquisitionDefault(n, c1, c2);
  }

  /** The fields `new MaterialDatabase()` stores. */
  function MaterialDatabaseFields(): map<string, JsValue>
  {
    map[
      "path" := Str("")]
  }

  /** The fields `new MaterialDatabase()` stores conform to `MaterialDatabase.input_type`. */
  lemma MaterialDatabaseConforms()
    ensures Conforms(MaterialDatabase, MaterialDatabaseFields(), true)
  {
  }

  /** The fields of `new MaterialDatabase()` hold no node, and so share none. */
  lemma MaterialDatabaseChildren()
    ensures ChildNodes(MaterialDatabaseFields()) == {}
    ensures Unshared(MaterialDatabaseFields())
  {
  }

  /** A node that holds the fields of `new MaterialDatabase()`, and whose child nodes
      are built for it and are not the node itself, is what `new MaterialDatabase()` builds. */
  lemma MaterialDatabaseDefault(n: Node)
    requires n.cls == MaterialDatabase && n.fields == MaterialDatabaseFields()
    ensures DefaultNode(n, MaterialDatabase)
    ensures ChildNodes(n.fields) == {}
  {
    MaterialDatabaseConforms();
    MaterialDatabaseChildren();
  }

  /** `new MaterialDatabase()`. */
  method NewMaterialDatabase() returns (n: Node)
    ensures fresh(NodeAndChildren(n)) && DefaultNode(n, MaterialDatabase)
    ensures n.fields == MaterialDatabaseFields()
  {
    n := new Node(MaterialDatabase, MaterialDatabaseFields());
    MaterialDatabaseDefault(n);
  }

}
