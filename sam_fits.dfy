/** When a field value fits its descriptor. */
module SamFits {
  import opened SamTypes
  import opened SamInputType

  /** A one-element array descriptor that names a node class (`['Process']`) describes a list of
      such nodes; every other array descriptor (`['number', 'number', 'number']`,
      `['Value', 'Value']`) describes a tuple of exactly that many components. */
  predicate IsListDescriptor(items: seq<TypeName>)
  {
    |items| == 1 && items[0].Cls?
  }

  /** `v` is a value of type `t`; with `initial`, it is moreover what a constructor stores. */
  predicate FitsType(v: JsValue, t: TypeName, initial: bool)
  {
    match t
    case Prim(TString) => v.Str? && (initial ==> v.s == "")
    case Prim(TNumber) => v.Null? || (!initial && v.Num?)
    case Prim(TBoolean) => v.Bool? && (initial ==> !v.b)
    case Cls(c) => v.Ref? && v.node.cls == c
  }

  /** `v` fits descriptor `d`. With `initial`, `v` is what a constructor stores: union slots are
      `undefined` and lists hold exactly one node of the class they name (that the node is itself
      a default is stated by `DefaultNode`, not here). */
  ghost predicate Fits(v: JsValue, d: Descriptor, initial: bool)
  {
    match d
    case Single(t) => FitsType(v, t, initial)
    case ArrayOf(items) =>
      && v.Arr?
      && if IsListDescriptor(items) then
           && (initial ==> |v.elems| == 1)
           && forall i :: 0 <= i < |v.elems| ==> FitsType(v.elems[i], items[0], initial)
         else
           && |v.elems| == |items|
           && forall i :: 0 <= i < |items| ==> FitsType(v.elems[i], items[i], initial)
    case Union(_, subclass) =>
      || v.Undefined?
      || (&& !initial
          && exists i :: 0 <= i < |subclass| && subclass[i].Some? && FitsType(v, subclass[i].value, false))
  }

  /** Field `key` of a `c` node, described by `d`, holds `fv`; a readonly flag starts out
      `true`. */
  ghost predicate FieldFits(c: ClassName, key: string, fv: JsValue, d: Descriptor, initial: bool)
  {
    if initial && IsReadonly(c, key) then fv == Bool(true) else Fits(fv, d, initial)
  }

  /** The own properties `f` of a `c` node are exactly the keys `c.input_type` describes, and each
      fits its descriptor. */
  ghost predicate Conforms(c: ClassName, f: map<string, JsValue>, initial: bool)
  {
    && (forall key :: key in f <==> InputType(c, key).Some?)
    && (forall key :: key in f ==> InputType(c, key).Some? && FieldFits(c, key, f[key], InputType(c, key).value, initial))
  }

  /** `n` is what `new c()` builds. */
  ghost predicate IsFresh(n: Node, c: ClassName)
    reads n
  {
    n.cls == c && Conforms(c, n.fields, true)
  }

  /** The nodes the field value `v` holds directly: the node it refers to, or the nodes that are
      elements of the list `v`. */
  function NodesOf(v: JsValue): set<Node>
  {
    match v
    case Ref(x) => {x}
    case Arr(es) => set i | 0 <= i < |es| && es[i].Ref? :: es[i].node
    case _ => {}
  }

  /** The nodes the fields `f` hold directly. */
  function ChildNodes(f: map<string, JsValue>): set<Node>
  {
    set key, x | key in f && x in NodesOf(f[key]) :: x
  }

  /** No two elements of the list `es` are the same node. */
  predicate NoRepeatedNode(es: seq<JsValue>)
  {
    forall i, j :: 0 <= i < j < |es| && es[i].Ref? ==> es[i] != es[j]
  }

  /** Every node the fields `f` hold is held at one place only: by one field, and at most once
      in a list. */
  ghost predicate Unshared(f: map<string, JsValue>)
  {
    && (forall k1, k2, x :: k1 in f && k2 in f && x in NodesOf(f[k1]) && x in NodesOf(f[k2]) ==> k1 == k2)
    && (forall key :: key in f && f[key].Arr? ==> NoRepeatedNode(f[key].elems))
  }

  /** The nodes the field value `v` holds are nodes that `owner` gives to field `key`, and `v`
      does not hold one of them twice. */
  ghost predicate OwnedBy(v: JsValue, key: string, owner: map<Node, string>)
  {
    && (forall x :: x in NodesOf(v) ==> x in owner && owner[x] == key)
    && (v.Arr? ==> NoRepeatedNode(v.elems))
  }

  /** A field map in which `owner` names, for each node held, the one field that holds it, and
      whose lists do not repeat a node, is unshared. */
  lemma UnsharedByOwner(f: map<string, JsValue>, owner: map<Node, string>)
    requires forall key :: key in f ==> OwnedBy(f[key], key, owner)
    ensures Unshared(f)
  {
    forall k1, k2, x | k1 in f && k2 in f && x in NodesOf(f[k1]) && x in NodesOf(f[k2])
      ensures k1 == k2
    {
      assert OwnedBy(f[k1], k1, owner) && OwnedBy(f[k2], k2, owner);
    }
  }

  /** `x` is a node that the constructor building `n` has built for one of `n`'s fields: it is not
      `n`, and it is what its own class's constructor builds. */
  ghost predicate BuiltChild(n: Node, x: Node)
    reads x
  {
    x != n && IsFresh(x, x.cls)
  }

  /** `n` and the nodes its fields hold: what a constructor allocates one level deep. */
  function NodeAndChildren(n: Node): set<Node>
    reads n
  {
    {n} + ChildNodes(n.fields)
  }

  /** `n` is what `new c()` builds: it holds the initial value of every field `c.input_type`
      describes, and each node its fields hold is held at one place only and is a child built for
      it. A constructor moreover returns `n` with `fresh(NodeAndChildren(n))`. */
  ghost predicate DefaultNode(n: Node, c: ClassName)
    reads n, ChildNodes(n.fields)
  {
    && IsFresh(n, c)
    && Unshared(n.fields)
    && forall x :: x in ChildNodes(n.fields) ==> BuiltChild(n, x)
  }

  /** Read as written, the descriptor of a misdescribed list field rejects what the constructor
      stores there: `new CTscanner()` puts a one-element list of Volume nodes in `cluster`, but
      `input_type('cluster')` names a single Volume node. The corrected descriptor accepts it. */
  lemma MisdescribedListRejectsDefault(c: ClassName, key: string, v: Node)
    requires IsMisdescribedList(c, key) && v.cls == Volume
    ensures InputTypeAsWritten(c, key).Some?
    ensures !Fits(Arr([Ref(v)]), InputTypeAsWritten(c, key).value, true)
    ensures Fits(Arr([Ref(v)]), InputType(c, key).value, true)
  {
    assert InputType(c, key) == Some(ArrayOf([Cls(Volume)]));
  }
}
