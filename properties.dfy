/**
 * What the transformer promises, stated over all inputs: how patches merge,
 * how pin types resolve, how output pins are traced through links, and the
 * shape of the transformed node table.
 */
module TransformerProperties {
  import opened Ramda
  import opened Transformer

  // ---------------------------------------------------------------- Patch merge

  function NodesOf(ps: seq<Patch>): seq<Obj<Node>> {
    seq(|ps|, i requires 0 <= i < |ps| => ps[i].nodes)
  }

  function PinsOf(ps: seq<Patch>): seq<Obj<Pin>> {
    seq(|ps|, i requires 0 <= i < |ps| => ps[i].pins)
  }

  function LinksOf(ps: seq<Patch>): seq<Obj<Link>> {
    seq(|ps|, i requires 0 <= i < |ps| => ps[i].links)
  }

  /**
   * Folding whole patches with the two-level merge is the same as merging
   * each collection on its own: `nodes` only ever meet `nodes`.
   */
  lemma MergePatchesFieldwise(ps: seq<Patch>)
    ensures MergePatches(ps).nodes == AssignAll(NodesOf(ps))
    ensures MergePatches(ps).pins == AssignAll(PinsOf(ps))
    ensures MergePatches(ps).links == AssignAll(LinksOf(ps))
  {
    MergedNodes(ps);
    MergedPins(ps);
    MergedLinks(ps);
  }

  lemma {:induction false} MergedNodes(ps: seq<Patch>)
    ensures MergePatches(ps).nodes == AssignAll(NodesOf(ps))
  {
    if ps != [] {
      var n := |ps|;
      var init := ps[..n - 1];
      var qs, last := NodesOf(ps), ps[n - 1];
      MergedNodes(init);
      assert NodesOf(init) == qs[..n - 1];
      assert qs[n - 1] == last.nodes;
      AssignAllStep(qs);
      assert MergePatches(ps).nodes == Assign(MergePatches(init).nodes, last.nodes);
    }
  }

  lemma {:induction false} MergedPins(ps: seq<Patch>)
    ensures MergePatches(ps).pins == AssignAll(PinsOf(ps))
  {
    if ps != [] {
      var n := |ps|;
      var init := ps[..n - 1];
      var qs, last := PinsOf(ps), ps[n - 1];
      MergedPins(init);
      assert PinsOf(init) == qs[..n - 1];
      assert qs[n - 1] == last.pins;
      AssignAllStep(qs);
      assert MergePatches(ps).pins == Assign(MergePatches(init).pins, last.pins);
    }
  }

  lemma {:induction false} MergedLinks(ps: seq<Patch>)
    ensures MergePatches(ps).links == AssignAll(LinksOf(ps))
  {
    if ps != [] {
      var n := |ps|;
      var init := ps[..n - 1];
      var qs, last := LinksOf(ps), ps[n - 1];
      MergedLinks(init);
      assert LinksOf(init) == qs[..n - 1];
      assert qs[n - 1] == last.links;
      AssignAllStep(qs);
      assert MergePatches(ps).links == Assign(MergePatches(init).links, last.links);
    }
  }

  /** A single patch merges to its own collections, without its id. */
  lemma SinglePatch(p: Patch)
    ensures MergePatches([p]) == MergedPatch(p.nodes, p.pins, p.links)
  {
    assert [p][..0] == [];
    AssignIntoEmpty(p.nodes);
    AssignIntoEmpty(p.pins);
    AssignIntoEmpty(p.links);
  }

  /** The merged collections hold exactly the keys some patch contributes. */
  lemma MergedKeys(ps: seq<Patch>, k: string)
    ensures k in Keys(MergePatches(ps).nodes) <==> exists i | 0 <= i < |ps| :: k in Keys(ps[i].nodes)
    ensures k in Keys(MergePatches(ps).pins) <==> exists i | 0 <= i < |ps| :: k in Keys(ps[i].pins)
    ensures k in Keys(MergePatches(ps).links) <==> exists i | 0 <= i < |ps| :: k in Keys(ps[i].links)
  {
    MergePatchesFieldwise(ps);
    NodeKeysOfAll(ps, k);
    PinKeysOfAll(ps, k);
    LinkKeysOfAll(ps, k);
  }

  lemma NodeKeysOfAll(ps: seq<Patch>, k: string)
    ensures k in Keys(AssignAll(NodesOf(ps))) <==> exists i | 0 <= i < |ps| :: k in Keys(ps[i].nodes)
  {
    AssignAllKeys(NodesOf(ps), k);
    assert forall i | 0 <= i < |ps| :: NodesOf(ps)[i] == ps[i].nodes;
  }

  lemma PinKeysOfAll(ps: seq<Patch>, k: string)
    ensures k in Keys(AssignAll(PinsOf(ps))) <==> exists i | 0 <= i < |ps| :: k in Keys(ps[i].pins)
  {
    AssignAllKeys(PinsOf(ps), k);
    assert forall i | 0 <= i < |ps| :: PinsOf(ps)[i] == ps[i].pins;
  }

  lemma LinkKeysOfAll(ps: seq<Patch>, k: string)
    ensures k in Keys(AssignAll(LinksOf(ps))) <==> exists i | 0 <= i < |ps| :: k in Keys(ps[i].links)
  {
    AssignAllKeys(LinksOf(ps), k);
    assert forall i | 0 <= i < |ps| :: LinksOf(ps)[i] == ps[i].links;
  }

  /**
   * A colliding entry takes the value of the last patch that has it, whole:
   * nothing of an earlier patch's entry survives.
   */
  lemma MergedLastWins(ps: seq<Patch>, j: int, k: string)
    requires 0 <= j < |ps|
    ensures k in Keys(ps[j].nodes) && (forall i | j < i < |ps| :: k !in Keys(ps[i].nodes)) ==> Prop(MergePatches(ps).nodes, k) == Prop(ps[j].nodes, k)
    ensures k in Keys(ps[j].pins) && (forall i | j < i < |ps| :: k !in Keys(ps[i].pins)) ==> Prop(MergePatches(ps).pins, k) == Prop(ps[j].pins, k)
    ensures k in Keys(ps[j].links) && (forall i | j < i < |ps| :: k !in Keys(ps[i].links)) ==> Prop(MergePatches(ps).links, k) == Prop(ps[j].links, k)
  {
    MergePatchesFieldwise(ps);
    NodeLastWins(ps, j, k);
    PinLastWins(ps, j, k);
    LinkLastWins(ps, j, k);
  }

  lemma NodeLastWins(ps: seq<Patch>, j: int, k: string)
    requires 0 <= j < |ps|
    ensures k in Keys(ps[j].nodes) && (forall i | j < i < |ps| :: k !in Keys(ps[i].nodes)) ==> Prop(AssignAll(NodesOf(ps)), k) == Prop(ps[j].nodes, k)
  {
    if k in Keys(ps[j].nodes) && forall i | j < i < |ps| :: k !in Keys(ps[i].nodes) {
      assert forall i | j <= i < |ps| :: NodesOf(ps)[i] == ps[i].nodes;
      AssignAllLastWins(NodesOf(ps), j, k);
    }
  }

  lemma PinLastWins(ps: seq<Patch>, j: int, k: string)
    requires 0 <= j < |ps|
    ensures k in Keys(ps[j].pins) && (forall i | j < i < |ps| :: k !in Keys(ps[i].pins)) ==> Prop(AssignAll(PinsOf(ps)), k) == Prop(ps[j].pins, k)
  {
    if k in Keys(ps[j].pins) && forall i | j < i < |ps| :: k !in Keys(ps[i].pins) {
      assert forall i | j <= i < |ps| :: PinsOf(ps)[i] == ps[i].pins;
      AssignAllLastWins(PinsOf(ps), j, k);
    }
  }

  lemma LinkLastWins(ps: seq<Patch>, j: int, k: string)
    requires 0 <= j < |ps|
    ensures k in Keys(ps[j].links) && (forall i | j < i < |ps| :: k !in Keys(ps[i].links)) ==> Prop(AssignAll(LinksOf(ps)), k) == Prop(ps[j].links, k)
  {
    if k in Keys(ps[j].links) && forall i | j < i < |ps| :: k !in Keys(ps[i].links) {
      assert forall i | j <= i < |ps| :: LinksOf(ps)[i] == ps[i].links;
      AssignAllLastWins(LinksOf(ps), j, k);
    }
  }

  // ---------------------------------------------------------- Type resolution

  /**
   * `inputTypes(nt)[k]` is the native type of pin k exactly when pin k is an
   * input; an output pin (or any other) never appears.
   */
  lemma InputTypesLookup(nt: NodeType, k: string)
    requires UniqueKeys(nt.pins)
    ensures Prop(InputTypes(nt), k) ==
      if Prop(nt.pins, k).Some? && Prop(nt.pins, k).value.direction == Input
      then Some(NativeType(Prop(nt.pins, k).value.pinType))
      else None
  {
    var ins := Inputs(nt);
    FilterObjProp(nt.pins, HasDirection(Input), k);
    MapObjProp(ins, PinNativeType, k);
  }

  /** A node whose type id names no node type resolves to the empty type, without failing. */
  lemma MissingNodeType(ctx: Context, node: Node)
    requires node.typeId !in Keys(ctx.nodeTypes)
    ensures var t := TransformedNodeOf(ctx, node);
      t.id == node.id && t.pure == None && t.setup == None && t.evaluate == None
      && t.inputTypes == [] && t.outLinks == []
  {
    assert NodeTypeByNode(ctx, node) == EmptyNodeType;
  }

  // ---------------------------------------------------------- Link resolution

  /**
   * Each link from the pin is in `outgoingLinks`, at the place given by the
   * number of links from the pin declared before it.
   */
  lemma OutgoingLinksInOrder(ctx: Context, pin: Option<Pin>, i: int)
    requires 0 <= i < |LinkList(ctx)| && Nth(LinkList(ctx)[i].pins, 0) == PinId(pin)
    ensures var n := Count(LinkList(ctx)[..i], SourceIs(PinId(pin)));
      n < |OutgoingLinks(ctx, pin)| && OutgoingLinks(ctx, pin)[n] == LinkList(ctx)[i]
  {
    FilterSeqPosition(LinkList(ctx), SourceIs(PinId(pin)), i);
  }

  /**
   * An output pin with no pin instance has id undefined, which matches just
   * the links that have no `pins[0]`: its destination list is empty exactly
   * when every link has a source pin.
   */
  lemma AbsentPinOutLinks(ctx: Context, owner: Node, ntPin: NodeTypePin)
    requires PinByNodeTypePin(ctx, owner, ntPin) == None
    ensures NodeTypePinOutLinks(ctx, owner, ntPin) == [] <==> forall l | l in LinkList(ctx) :: |l.pins| > 0
  {
    var out := OutgoingLinks(ctx, None);
    if !forall l | l in LinkList(ctx) :: |l.pins| > 0 {
      var l :| l in LinkList(ctx) && |l.pins| == 0;
      assert l in out;
    } else if out != [] {
      assert out[0] in out;
    }
  }

  /**
   * The destination list of an output pin follows its links in declaration
   * order: the i-th link from the pin instance gives the entry at position
   * "number of earlier links from it", and that entry is the `{nodeId, key}`
   * of the pin under the link's `pins[1]`.
   */
  lemma {:induction false} DestinationsInOrder(ctx: Context, owner: Node, ntPin: NodeTypePin, i: int)
    requires var pin := PinByNodeTypePin(ctx, owner, ntPin);
      0 <= i < |LinkList(ctx)| && Nth(LinkList(ctx)[i].pins, 0) == PinId(pin)
    ensures var pin := PinByNodeTypePin(ctx, owner, ntPin);
      var n := Count(LinkList(ctx)[..i], SourceIs(PinId(pin)));
      var r := NodeTypePinOutLinks(ctx, owner, ntPin);
      n < |r| && r[n] == LinkDestination(ctx, LinkList(ctx)[i])
  {
    OutgoingLinksInOrder(ctx, PinByNodeTypePin(ctx, owner, ntPin), i);
  }

  /** Fan-out: two links from one output pin give two entries, in declaration order. */
  lemma {:induction false} FanOutOrder(ctx: Context, owner: Node, ntPin: NodeTypePin, i: int, j: int)
    requires var src := PinId(PinByNodeTypePin(ctx, owner, ntPin));
      0 <= i < j < |LinkList(ctx)| && Nth(LinkList(ctx)[i].pins, 0) == src && Nth(LinkList(ctx)[j].pins, 0) == src
    ensures var r := NodeTypePinOutLinks(ctx, owner, ntPin);
      exists a, b | 0 <= a < b < |r| ::
        r[a] == LinkDestination(ctx, LinkList(ctx)[i]) && r[b] == LinkDestination(ctx, LinkList(ctx)[j])
  {
    var src := PinId(PinByNodeTypePin(ctx, owner, ntPin));
    var r := NodeTypePinOutLinks(ctx, owner, ntPin);
    FilterSeqOrder(LinkList(ctx), SourceIs(src), i, j);
    var a := Count(LinkList(ctx)[..i], SourceIs(src));
    var b := Count(LinkList(ctx)[..j], SourceIs(src));
    assert r[a] == LinkDestination(ctx, LinkList(ctx)[i]);
    assert r[b] == LinkDestination(ctx, LinkList(ctx)[j]);
  }

  // ------------------------------------------------------------ Node assembly

  /**
   * `outLinks(node)[k]` is present exactly for an OUTPUT pin k of the node's
   * type whose destination list is non-empty, and then holds that list.
   */
  lemma NodeOutLinksLookup(ctx: Context, node: Node, k: string)
    requires UniqueKeys(NodeTypeByNode(ctx, node).pins)
    ensures var pins := NodeTypeByNode(ctx, node).pins;
      Prop(NodeOutLinks(ctx, node), k) ==
        if Prop(pins, k).Some? && Prop(pins, k).value.direction == Output
           && NodeTypePinOutLinks(ctx, node, Prop(pins, k).value) != []
        then Some(NodeTypePinOutLinks(ctx, node, Prop(pins, k).value))
        else None
  {
    var nt := NodeTypeByNode(ctx, node);
    var outs := Outputs(nt);
    var mapped := MapObj(outs, OutLinksOf(ctx, node));
    FilterObjProp(nt.pins, HasDirection(Output), k);
    FilterObjUnique(nt.pins, HasDirection(Output));
    MapObjProp(outs, OutLinksOf(ctx, node), k);
    MapObjKeys(outs, OutLinksOf(ctx, node));
    FilterObjProp(mapped, NotEmpty(), k);
  }

  /** Output pins of the node's type, each with its destination list, in the type's key order. */
  function OutputLists(ctx: Context, node: Node): Obj<seq<OutLink>> {
    MapObj(Outputs(NodeTypeByNode(ctx, node)), OutLinksOf(ctx, node))
  }

  /**
   * `outLinks` follows the order of the node type's output pins: output i,
   * when its list is non-empty, sits after the non-empty outputs before it.
   */
  lemma NodeOutLinksPosition(ctx: Context, node: Node, i: int)
    requires 0 <= i < |Outputs(NodeTypeByNode(ctx, node))|
    requires NodeTypePinOutLinks(ctx, node, Outputs(NodeTypeByNode(ctx, node))[i].value) != []
    ensures var out := Outputs(NodeTypeByNode(ctx, node))[i];
      var j := Count(OutputLists(ctx, node)[..i], ValueSatisfies(NotEmpty()));
      j < |NodeOutLinks(ctx, node)| &&
      NodeOutLinks(ctx, node)[j] == Entry(out.key, NodeTypePinOutLinks(ctx, node, out.value))
  {
    FilterSeqPosition(OutputLists(ctx, node), ValueSatisfies(NotEmpty()), i);
  }

  /** Two outputs with destinations keep their relative order in `outLinks`. */
  lemma NodeOutLinksOrder(ctx: Context, node: Node, i: int, j: int)
    requires 0 <= i < j < |Outputs(NodeTypeByNode(ctx, node))|
    requires NodeTypePinOutLinks(ctx, node, Outputs(NodeTypeByNode(ctx, node))[i].value) != []
    requires NodeTypePinOutLinks(ctx, node, Outputs(NodeTypeByNode(ctx, node))[j].value) != []
    ensures var a := Count(OutputLists(ctx, node)[..i], ValueSatisfies(NotEmpty()));
      var b := Count(OutputLists(ctx, node)[..j], ValueSatisfies(NotEmpty()));
      a < b < |NodeOutLinks(ctx, node)| &&
      NodeOutLinks(ctx, node)[a].key == Outputs(NodeTypeByNode(ctx, node))[i].key &&
      NodeOutLinks(ctx, node)[b].key == Outputs(NodeTypeByNode(ctx, node))[j].key
  {
    FilterSeqOrder(OutputLists(ctx, node), ValueSatisfies(NotEmpty()), i, j);
  }

  /**
   * Output pins keep the node type's declared pin order: output pin i sits
   * after the output pins declared before it.
   */
  lemma OutputsOrder(nt: NodeType, i: int)
    requires 0 <= i < |nt.pins| && nt.pins[i].value.direction == Output
    ensures var j := Count(nt.pins[..i], ValueSatisfies(HasDirection(Output)));
      j < |Outputs(nt)| && Outputs(nt)[j] == nt.pins[i]
  {
    FilterSeqPosition(nt.pins, ValueSatisfies(HasDirection(Output)), i);
  }

  /** The transformed table has exactly the merged patch's node keys. */
  lemma TransformKeys(project: Project)
    ensures Keys(Transform(project)) == Keys(MergedPatchOf(project).nodes)
  {
    var ctx := ContextOf(project);
    MapObjKeys(ctx.patch.nodes, TransformIn(ctx));
  }

  /** Under each node key sits the transformed node, whose id is the node's id. */
  lemma TransformLookup(project: Project, k: string)
    ensures var nodes := MergedPatchOf(project).nodes;
      Prop(Transform(project), k) ==
        if Prop(nodes, k).Some? then Some(TransformedNodeOf(ContextOf(project), Prop(nodes, k).value)) else None
    ensures Prop(Transform(project), k).Some? ==> Prop(Transform(project), k).value.id == Prop(MergedPatchOf(project).nodes, k).value.id
  {
    var ctx := ContextOf(project);
    MapObjProp(ctx.patch.nodes, TransformIn(ctx), k);
  }

  /**
   * End to end: in the table, node k's `inputTypes[pk]` is the native type
   * of pin pk of the node's type when pk is an input, and absent otherwise.
   */
  lemma TransformedInputTypes(project: Project, k: string, pk: string)
    requires Prop(MergedPatchOf(project).nodes, k).Some?
    requires UniqueKeys(NodeTypeByNode(ContextOf(project), Prop(MergedPatchOf(project).nodes, k).value).pins)
    ensures var pins := NodeTypeByNode(ContextOf(project), Prop(MergedPatchOf(project).nodes, k).value).pins;
      Prop(Transform(project), k).Some? &&
      Prop(Prop(Transform(project), k).value.inputTypes, pk) ==
        if Prop(pins, pk).Some? && Prop(pins, pk).value.direction == Input
        then Some(NativeType(Prop(pins, pk).value.pinType))
        else None
  {
    var node := Prop(MergedPatchOf(project).nodes, k).value;
    TransformLookup(project, k);
    InputTypesLookup(NodeTypeByNode(ContextOf(project), node), pk);
  }

  /**
   * End to end: in the table, node k's `outLinks[pk]` is the destination
   * list of output pin pk of the node's type when that list is non-empty,
   * and absent otherwise.
   */
  lemma TransformedOutLinks(project: Project, k: string, pk: string)
    requires Prop(MergedPatchOf(project).nodes, k).Some?
    requires UniqueKeys(NodeTypeByNode(ContextOf(project), Prop(MergedPatchOf(project).nodes, k).value).pins)
    ensures var ctx := ContextOf(project);
      var node := Prop(MergedPatchOf(project).nodes, k).value;
      var pins := NodeTypeByNode(ctx, node).pins;
      Prop(Transform(project), k).Some? &&
      Prop(Prop(Transform(project), k).value.outLinks, pk) ==
        if Prop(pins, pk).Some? && Prop(pins, pk).value.direction == Output
           && NodeTypePinOutLinks(ctx, node, Prop(pins, pk).value) != []
        then Some(NodeTypePinOutLinks(ctx, node, Prop(pins, pk).value))
        else None
  {
    var node := Prop(MergedPatchOf(project).nodes, k).value;
    TransformLookup(project, k);
    NodeOutLinksLookup(ContextOf(project), node, pk);
  }

  /** Patches whose collections repeat no key give a table that repeats no node key. */
  lemma TransformUnique(project: Project)
    requires forall p | p in Values(project.patches) :: PatchKeysUnique(p)
    ensures UniqueKeys(Transform(project))
  {
    var ctx := ContextOf(project);
    assert UniqueKeys(ctx.patch.nodes);
    TransformInContext(project, ctx);
    MapObjKeys(ctx.patch.nodes, TransformIn(ctx));
  }

  lemma TransformInContext(project: Project, ctx: Context)
    requires ContextOf(project) == ctx
    ensures Transform(project) == MapObj(ctx.patch.nodes, TransformIn(ctx))
  {
  }

  /** A project with no patches and no node types transforms to the empty table. */
  lemma EmptyProject()
    ensures Transform(Project([], [])) == []
  {
  }
}
