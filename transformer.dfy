/**
 * The xod-espruino project transformer: turns a project of patches, node
 * types, pins and links into the flat table of nodes the runtime evaluates.
 *
 * Every closure of `transform` is a function here. The values the closures
 * capture (the merged patch and the project's node types) travel in a
 * Context built once from the project.
 */
module Transformer {
  import opened Ramda

  /** The pin type tags; Other carries any tag outside the four known ones. */
  datatype PinType = Pulse | Bool | Number | Str | Other(name: string)

  /** The pin direction tags; OtherDirection carries anything else. */
  datatype Direction = Input | Output | OtherDirection(name: string)

  /** A behaviour field of a node type (`pure`, `setup`, `evaluate`), copied through untouched. */
  datatype Payload = Payload(source: string)

  /** NodeType.Pin; the JSON field `type` is pinType. */
  datatype NodeTypePin = NodeTypePin(key: string, direction: Direction, pinType: PinType)

  /** A node type; a field the JSON lacks is None, a missing `pins` is the empty object. */
  datatype NodeType = NodeType(
    pure: Option<Payload>,
    setup: Option<Payload>,
    evaluate: Option<Payload>,
    pins: Obj<NodeTypePin>)

  /** The `{}` a missing node type stands for. */
  const EmptyNodeType := NodeType(None, None, None, [])

  datatype Node = Node(id: string, typeId: string)
  datatype Pin = Pin(id: string, nodeId: string, key: string)

  /** A link; `pins[0]` is the source pin id, `pins[1]` the destination pin id. */
  datatype Link = Link(pins: seq<string>)

  /** A patch; a missing `nodes`, `pins` or `links` is the empty object. */
  datatype Patch = Patch(id: string, nodes: Obj<Node>, pins: Obj<Pin>, links: Obj<Link>)

  /** The project document; a missing `patches` or `nodeTypes` is the empty object. */
  datatype Project = Project(patches: Obj<Patch>, nodeTypes: Obj<NodeType>)

  /** All patches joined into one, without a patch `id`. */
  datatype MergedPatch = MergedPatch(nodes: Obj<Node>, pins: Obj<Pin>, links: Obj<Link>)

  /** What the closures of `transform` capture. */
  datatype Context = Context(patch: MergedPatch, nodeTypes: Obj<NodeType>)

  /**
   * What `nativeType` yields: the constructor `Boolean`, `Number` or
   * `String`, or the pin type tag itself when it matched none of them.
   */
  datatype JsType = PinTypeName(pinType: PinType) | BooleanCtor | NumberCtor | StringCtor

  /** A destination `{nodeId, key}`, or the `{}` a link to no known pin yields. */
  datatype OutLink = Destination(nodeId: string, key: string) | NoDestination

  datatype TransformedNodeType = TransformedNodeType(
    pure: Option<Payload>,
    setup: Option<Payload>,
    evaluate: Option<Payload>,
    inputTypes: Obj<JsType>)

  datatype TransformedNode = TransformedNode(
    id: string,
    pure: Option<Payload>,
    setup: Option<Payload>,
    evaluate: Option<Payload>,
    inputTypes: Obj<JsType>,
    outLinks: Obj<seq<OutLink>>)

  // ---------------------------------------------------------------- Patch merge

  /** A patch as JSON gives it: no collection repeats a key. */
  predicate PatchKeysUnique(p: Patch) {
    UniqueKeys(p.nodes) && UniqueKeys(p.pins) && UniqueKeys(p.links)
  }

  predicate MergedKeysUnique(m: MergedPatch) {
    UniqueKeys(m.nodes) && UniqueKeys(m.pins) && UniqueKeys(m.links)
  }

  /** `R.mergeWith(R.merge)`: each collection merged one level deep, the patch winning. */
  function MergeInto(acc: MergedPatch, p: Patch): (r: MergedPatch)
    ensures Keys(r.nodes) == Keys(acc.nodes) + Keys(p.nodes)
    ensures Keys(r.pins) == Keys(acc.pins) + Keys(p.pins)
    ensures Keys(r.links) == Keys(acc.links) + Keys(p.links)
    ensures MergedKeysUnique(acc) && PatchKeysUnique(p) ==> MergedKeysUnique(r)
  {
    var r := MergedPatch(Assign(acc.nodes, p.nodes), Assign(acc.pins, p.pins), Assign(acc.links, p.links));
    if MergedKeysUnique(acc) && PatchKeysUnique(p) then
      AssignUnique(acc.nodes, p.nodes);
      AssignUnique(acc.pins, p.pins);
      AssignUnique(acc.links, p.links);
      r
    else
      r
  }

  /**
   * `R.reduce(R.mergeWith(R.merge), {})` over the patches, left to right
   * (see TransformerProperties.MergedKeys and MergedLastWins).
   */
  function MergePatches(ps: seq<Patch>): (r: MergedPatch)
    ensures (forall i | 0 <= i < |ps| :: PatchKeysUnique(ps[i])) ==> MergedKeysUnique(r)
  {
    if ps == [] then MergedPatch([], [], [])
    else
      var init := ps[..|ps| - 1];
      assert forall i | 0 <= i < |init| :: init[i] == ps[i];
      MergeInto(MergePatches(init), ps[|ps| - 1])
  }

  /** `mergedPatch`: the project's patches, in key order, merged; `R.omit('id')` drops the id. */
  function MergedPatchOf(project: Project): (r: MergedPatch)
    ensures (forall p | p in Values(project.patches) :: PatchKeysUnique(p)) ==> MergedKeysUnique(r)
  {
    var ps := Values(project.patches);
    assert forall i | 0 <= i < |ps| :: ps[i] in ps;
    MergePatches(ps)
  }

  function ContextOf(project: Project): Context {
    Context(MergedPatchOf(project), project.nodeTypes)
  }

  /** `R.values(mergedPatch.pins)`: the merged pins, in key order. */
  function PinList(ctx: Context): (r: seq<Pin>)
    ensures |r| == |ctx.patch.pins|
    ensures forall i | 0 <= i < |r| :: r[i] == ctx.patch.pins[i].value
  {
    Values(ctx.patch.pins)
  }

  /** `R.values(mergedPatch.links)`: the merged links, in key order. */
  function LinkList(ctx: Context): (r: seq<Link>)
    ensures |r| == |ctx.patch.links|
    ensures forall i | 0 <= i < |r| :: r[i] == ctx.patch.links[i].value
  {
    Values(ctx.patch.links)
  }

  /** JavaScript turns an undefined property key into the string "undefined". */
  function PropertyKey(id: Option<string>): string {
    match id
    case Some(s) => s
    case None => "undefined"
  }

  /** `pinById`: the pin stored under the key, None for the `{}` default. */
  function PinById(ctx: Context, id: Option<string>): (r: Option<Pin>)
    ensures r.Some? <==> PropertyKey(id) in Keys(ctx.patch.pins)
    ensures r.Some? ==> Entry(PropertyKey(id), r.value) in ctx.patch.pins
    ensures forall i | FirstWithKey(ctx.patch.pins, PropertyKey(id), i) :: r == Some(ctx.patch.pins[i].value)
  {
    Prop(ctx.patch.pins, PropertyKey(id))
  }

  // ---------------------------------------------------------- Type resolution

  /** `nodeTypeById`: the node type stored under id, or the empty type. */
  function NodeTypeById(ctx: Context, id: string): (r: NodeType)
    ensures id !in Keys(ctx.nodeTypes) ==> r == EmptyNodeType
    ensures forall i | FirstWithKey(ctx.nodeTypes, id, i) :: r == ctx.nodeTypes[i].value
  {
    Prop(ctx.nodeTypes, id).GetOr(EmptyNodeType)
  }

  /** The node type a node names by its `typeId`. */
  function NodeTypeByNode(ctx: Context, node: Node): (r: NodeType)
    ensures node.typeId !in Keys(ctx.nodeTypes) ==> r == EmptyNodeType
    ensures forall i | FirstWithKey(ctx.nodeTypes, node.typeId, i) :: r == ctx.nodeTypes[i].value
  {
    NodeTypeById(ctx, node.typeId)
  }

  /** `R.when(R.equals(test), R.always(result))`. */
  function WhenEquals(test: JsType, result: JsType, x: JsType): JsType {
    if x == test then result else x
  }

  /**
   * `nativeType`: the pin type tag passed through four `R.when` steps.
   * PULSE and BOOL become Boolean, NUMBER Number, STRING String; any other
   * tag comes out as it went in.
   */
  function NativeType(t: PinType): (r: JsType)
    ensures r == BooleanCtor <==> t == Pulse || t == Bool
    ensures r == NumberCtor <==> t == Number
    ensures r == StringCtor <==> t == Str
    ensures r.PinTypeName? <==> t.Other?
    ensures r.PinTypeName? ==> r.pinType == t
  {
    var x0 := PinTypeName(t);
    var x1 := WhenEquals(PinTypeName(Pulse), BooleanCtor, x0);
    var x2 := WhenEquals(PinTypeName(Bool), BooleanCtor, x1);
    var x3 := WhenEquals(PinTypeName(Number), NumberCtor, x2);
    WhenEquals(PinTypeName(Str), StringCtor, x3)
  }

  /** `R.propEq('direction', dir)`. */
  function HasDirection(dir: Direction): NodeTypePin -> bool {
    (p: NodeTypePin) => p.direction == dir
  }

  /** `filterByDirection(dir)`: the pins of the given direction, in key order. */
  function FilterByDirection(dir: Direction, pins: Obj<NodeTypePin>): (r: Obj<NodeTypePin>)
    ensures forall e | e in r :: e in pins && e.value.direction == dir
    ensures forall e | e in pins && e.value.direction == dir :: e in r
  {
    FilterObj(pins, HasDirection(dir))
  }

  /** `filterByDirection(INPUT)`. */
  function Inputs(nt: NodeType): (r: Obj<NodeTypePin>)
    ensures forall e | e in r :: e in nt.pins && e.value.direction == Input
    ensures forall e | e in nt.pins && e.value.direction == Input :: e in r
  {
    FilterByDirection(Input, nt.pins)
  }

  /** `filterByDirection(OUTPUT)`. */
  function Outputs(nt: NodeType): (r: Obj<NodeTypePin>)
    ensures forall e | e in r :: e in nt.pins && e.value.direction == Output
    ensures forall e | e in nt.pins && e.value.direction == Output :: e in r
  {
    FilterByDirection(Output, nt.pins)
  }

  /** `pin => nativeType(pin.type)`. */
  function PinNativeType(p: NodeTypePin): JsType {
    NativeType(p.pinType)
  }

  /**
   * `inputTypes`: one entry per INPUT pin of the node type, under the same
   * key, holding the native type of the pin's type; no other entries.
   */
  function InputTypes(nt: NodeType): (r: Obj<JsType>)
    ensures forall e | e in r :: exists p :: Entry(e.key, p) in nt.pins && p.direction == Input && e.value == NativeType(p.pinType)
    ensures forall e | e in nt.pins && e.value.direction == Input :: Entry(e.key, NativeType(e.value.pinType)) in r
  {
    InputTypesEntries(Inputs(nt), nt.pins);
    MapObj(Inputs(nt), PinNativeType)
  }

  lemma InputTypesEntries(ins: Obj<NodeTypePin>, pins: Obj<NodeTypePin>)
    requires ins == FilterByDirection(Input, pins)
    ensures var r := MapObj(ins, PinNativeType);
      && (forall e | e in r :: exists p :: Entry(e.key, p) in pins && p.direction == Input && e.value == NativeType(p.pinType))
      && (forall e | e in pins && e.value.direction == Input :: Entry(e.key, NativeType(e.value.pinType)) in r)
  {
    var r := MapObj(ins, PinNativeType);
    forall e | e in r
      ensures exists p :: Entry(e.key, p) in pins && p.direction == Input && e.value == NativeType(p.pinType)
    {
      var i :| 0 <= i < |r| && r[i] == e;
      assert ins[i] in ins;
      assert Entry(e.key, ins[i].value) == ins[i];
    }
    forall e | e in pins && e.value.direction == Input
      ensures Entry(e.key, NativeType(e.value.pinType)) in r
    {
      var i :| 0 <= i < |ins| && ins[i] == e;
      assert r[i] == Entry(e.key, NativeType(e.value.pinType));
    }
  }

  /** `transformedNodeType`: the three behaviour fields as they are, and the input types. */
  function TransformedNodeTypeOf(nt: NodeType): (r: TransformedNodeType)
    ensures r.pure == nt.pure && r.setup == nt.setup && r.evaluate == nt.evaluate
    ensures r.inputTypes == InputTypes(nt)
    ensures Keys(r.inputTypes) == Keys(Inputs(nt))
  {
    MapObjKeys(Inputs(nt), PinNativeType);
    TransformedNodeType(nt.pure, nt.setup, nt.evaluate, InputTypes(nt))
  }

  // ---------------------------------------------------------- Link resolution

  /** `linkDestination`: the `{nodeId, key}` of the pin stored under `pins[1]`. */
  function LinkDestination(ctx: Context, link: Link): (r: OutLink)
    ensures r.Destination? <==> PropertyKey(Nth(link.pins, 1)) in Keys(ctx.patch.pins)
    ensures r.Destination? ==> exists p :: Entry(PropertyKey(Nth(link.pins, 1)), p) in ctx.patch.pins && r == Destination(p.nodeId, p.key)
  {
    match PinById(ctx, Nth(link.pins, 1))
    case Some(p) => Destination(p.nodeId, p.key)
    case None => NoDestination
  }

  /** The id of a pin instance; the `{}` default has none (undefined). */
  function PinId(pin: Option<Pin>): Option<string> {
    match pin
    case Some(p) => Some(p.id)
    case None => None
  }

  /** `R.equals(id)` applied to `pins[0]` of a link. */
  function SourceIs(id: Option<string>): Link -> bool {
    (l: Link) => Nth(l.pins, 0) == id
  }

  /**
   * `outgoingLinks(pin)`: the links whose `pins[0]` equals the pin's id, in
   * link-list order (see TransformerProperties.OutgoingLinksInOrder).
   */
  function OutgoingLinks(ctx: Context, pin: Option<Pin>): (r: seq<Link>)
    ensures forall l | l in r :: l in LinkList(ctx) && Nth(l.pins, 0) == PinId(pin)
    ensures forall l | l in LinkList(ctx) && Nth(l.pins, 0) == PinId(pin) :: l in r
  {
    FilterSeq(LinkList(ctx), SourceIs(PinId(pin)))
  }

  /** The test `R.where({nodeId, key})` applies to a pin. */
  function InstanceOf(owner: Node, ntPin: NodeTypePin): Pin -> bool {
    (p: Pin) => p.nodeId == owner.id && p.key == ntPin.key
  }

  /**
   * `pinByNodeTypePin(owner, ntPin)`: the first pin of the pin list that
   * belongs to the owner and has the node-type pin's key; None (`{}`) if none.
   */
  function PinByNodeTypePin(ctx: Context, owner: Node, ntPin: NodeTypePin): (r: Option<Pin>)
    ensures r.None? <==> forall i | 0 <= i < |PinList(ctx)| :: !(PinList(ctx)[i].nodeId == owner.id && PinList(ctx)[i].key == ntPin.key)
    ensures forall i | FirstSatisfying(PinList(ctx), InstanceOf(owner, ntPin), i) :: r == Some(PinList(ctx)[i])
  {
    Find(PinList(ctx), InstanceOf(owner, ntPin))
  }

  /** `linkDestination` with the context fixed. */
  function DestinationIn(ctx: Context): Link -> OutLink {
    (l: Link) => LinkDestination(ctx, l)
  }

  /** `nodeTypePinOutLinks(owner)(ntPin)`: one destination per outgoing link, in order. */
  function NodeTypePinOutLinks(ctx: Context, owner: Node, ntPin: NodeTypePin): (r: seq<OutLink>)
    ensures |r| == |OutgoingLinks(ctx, PinByNodeTypePin(ctx, owner, ntPin))|
    ensures forall i | 0 <= i < |r| :: r[i] == LinkDestination(ctx, OutgoingLinks(ctx, PinByNodeTypePin(ctx, owner, ntPin))[i])
  {
    MapSeq(OutgoingLinks(ctx, PinByNodeTypePin(ctx, owner, ntPin)), DestinationIn(ctx))
  }

  // ------------------------------------------------------------ Node assembly

  /** `nodeTypePinOutLinks(owner)` as the function `R.map` applies. */
  function OutLinksOf(ctx: Context, owner: Node): NodeTypePin -> seq<OutLink> {
    (p: NodeTypePin) => NodeTypePinOutLinks(ctx, owner, p)
  }

  /** The negation of `R.isEmpty` on a destination list. */
  function NotEmpty(): seq<OutLink> -> bool {
    (l: seq<OutLink>) => l != []
  }

  /**
   * `nodeOutLinks(node)`: for each OUTPUT pin of the node's type, under the
   * pin's key, its destination list; outputs with no destination left out.
   */
  function NodeOutLinks(ctx: Context, node: Node): (r: Obj<seq<OutLink>>)
    ensures forall e | e in r :: e.value != [] && exists p :: Entry(e.key, p) in Outputs(NodeTypeByNode(ctx, node)) && e.value == NodeTypePinOutLinks(ctx, node, p)
    ensures forall e | e in Outputs(NodeTypeByNode(ctx, node)) && NodeTypePinOutLinks(ctx, node, e.value) != [] :: Entry(e.key, NodeTypePinOutLinks(ctx, node, e.value)) in r
  {
    var outs := Outputs(NodeTypeByNode(ctx, node));
    var mapped := MapObj(outs, OutLinksOf(ctx, node));
    var r := FilterObj(mapped, NotEmpty());
    forall e | e in r
      ensures e.value != [] && exists p :: Entry(e.key, p) in outs && e.value == NodeTypePinOutLinks(ctx, node, p)
    {
      var i :| 0 <= i < |mapped| && mapped[i] == e;
      assert outs[i] in outs;
    }
    forall e | e in outs && NodeTypePinOutLinks(ctx, node, e.value) != []
      ensures Entry(e.key, NodeTypePinOutLinks(ctx, node, e.value)) in r
    {
      var i :| 0 <= i < |outs| && outs[i] == e;
      assert mapped[i] == Entry(e.key, NodeTypePinOutLinks(ctx, node, e.value));
    }
    r
  }

  /** `transformedNode`: the node's id, its type's behaviour and input types, and its out links. */
  function TransformedNodeOf(ctx: Context, node: Node): (r: TransformedNode)
    ensures r.id == node.id
    ensures var nt := NodeTypeByNode(ctx, node);
      r.pure == nt.pure && r.setup == nt.setup && r.evaluate == nt.evaluate
    ensures r.inputTypes == InputTypes(NodeTypeByNode(ctx, node))
    ensures r.outLinks == NodeOutLinks(ctx, node)
    ensures Keys(r.inputTypes) == Keys(Inputs(NodeTypeByNode(ctx, node)))
    ensures Keys(r.outLinks) <= Keys(Outputs(NodeTypeByNode(ctx, node)))
  {
    var nt := NodeTypeByNode(ctx, node);
    MapObjKeys(Outputs(nt), OutLinksOf(ctx, node));
    var t := TransformedNodeTypeOf(nt);
    TransformedNode(node.id, t.pure, t.setup, t.evaluate, t.inputTypes, NodeOutLinks(ctx, node))
  }

  function TransformIn(ctx: Context): Node -> TransformedNode {
    (n: Node) => TransformedNodeOf(ctx, n)
  }

  /**
   * `transform(project)`: every node of the merged patch, under its own key
   * and in the same order, transformed.
   */
  function Transform(project: Project): (r: Obj<TransformedNode>)
    ensures |r| == |MergedPatchOf(project).nodes|
    ensures forall i | 0 <= i < |r| ::
      var e := MergedPatchOf(project).nodes[i];
      r[i].key == e.key && r[i].value == TransformedNodeOf(ContextOf(project), e.value)
  {
    var ctx := ContextOf(project);
    var nodes := MergedPatchOf(project).nodes;
    assert ctx.patch.nodes == nodes;
    MapObj(nodes, TransformIn(ctx))
  }
}
