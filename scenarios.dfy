/**
 * Concrete projects, worked through the transformer.
 */
module TransformerScenarios {
  import opened Ramda
  import opened Transformer
  import opened TransformerProperties

  /** A node type `add`: inputs a and b, output sum, all numbers. */
  const AddType := NodeType(None, None, None, [
    Entry("a", NodeTypePin("a", Input, Number)),
    Entry("b", NodeTypePin("b", Input, Number)),
    Entry("sum", NodeTypePin("sum", Output, Number))])

  const AddNodes := [Entry("n1", Node("n1", "add")), Entry("n2", Node("n2", "add"))]

  const AddPins := [
    Entry("n1a", Pin("n1a", "n1", "a")), Entry("n1b", Pin("n1b", "n1", "b")), Entry("n1sum", Pin("n1sum", "n1", "sum")),
    Entry("n2a", Pin("n2a", "n2", "a")), Entry("n2b", Pin("n2b", "n2", "b")), Entry("n2sum", Pin("n2sum", "n2", "sum"))]

  const AddLinks := [Entry("l1", Link(["n1sum", "n2a"]))]

  const AddProject := Project([Entry("main", Patch("main", AddNodes, AddPins, AddLinks))], [Entry("add", AddType)])

  const AddContext := Context(MergedPatch(AddNodes, AddPins, AddLinks), [Entry("add", AddType)])

  const NumberInputs := [Entry("a", NumberCtor), Entry("b", NumberCtor)]

  lemma AddContextMerged()
    ensures ContextOf(AddProject) == AddContext
  {
    var p := Patch("main", AddNodes, AddPins, AddLinks);
    assert Values(AddProject.patches) == [p];
    SinglePatch(p);
  }

  lemma AddInputTypes()
    ensures InputTypes(AddType) == NumberInputs
  {
    var pins := AddType.pins;
    var isInput := ValueSatisfies(HasDirection(Input));
    assert FilterSeq(pins[2..], isInput) == [];
    assert FilterSeq(pins[1..], isInput) == [pins[1]];
    assert Inputs(AddType) == [pins[0], pins[1]];
    MapTwo(Inputs(AddType), PinNativeType);
  }

  const Sum := NodeTypePin("sum", Output, Number)

  lemma AddOutputs()
    ensures Outputs(AddType) == [Entry("sum", Sum)]
  {
  }

  lemma AddSumPins()
    ensures PinByNodeTypePin(AddContext, Node("n1", "add"), Sum) == Some(Pin("n1sum", "n1", "sum"))
    ensures PinByNodeTypePin(AddContext, Node("n2", "add"), Sum) == Some(Pin("n2sum", "n2", "sum"))
  {
    AddPinList();
    AddSumPin1();
    AddSumPin2();
  }

  lemma AddPinList()
    ensures PinList(AddContext) == [
      Pin("n1a", "n1", "a"), Pin("n1b", "n1", "b"), Pin("n1sum", "n1", "sum"),
      Pin("n2a", "n2", "a"), Pin("n2b", "n2", "b"), Pin("n2sum", "n2", "sum")]
  {
  }

  lemma AddSumPin1()
    requires PinList(AddContext) == [
      Pin("n1a", "n1", "a"), Pin("n1b", "n1", "b"), Pin("n1sum", "n1", "sum"),
      Pin("n2a", "n2", "a"), Pin("n2b", "n2", "b"), Pin("n2sum", "n2", "sum")]
    ensures PinByNodeTypePin(AddContext, Node("n1", "add"), Sum) == Some(Pin("n1sum", "n1", "sum"))
  {
    assert FirstSatisfying(PinList(AddContext), InstanceOf(Node("n1", "add"), Sum), 2);
  }

  lemma AddSumPin2()
    requires PinList(AddContext) == [
      Pin("n1a", "n1", "a"), Pin("n1b", "n1", "b"), Pin("n1sum", "n1", "sum"),
      Pin("n2a", "n2", "a"), Pin("n2b", "n2", "b"), Pin("n2sum", "n2", "sum")]
    ensures PinByNodeTypePin(AddContext, Node("n2", "add"), Sum) == Some(Pin("n2sum", "n2", "sum"))
  {
    assert FirstSatisfying(PinList(AddContext), InstanceOf(Node("n2", "add"), Sum), 5);
  }

  lemma AddLinkDestination()
    ensures LinkDestination(AddContext, Link(["n1sum", "n2a"])) == Destination("n2", "a")
  {
    assert FirstWithKey(AddPins, "n2a", 3);
  }

  lemma AddOutgoing()
    ensures OutgoingLinks(AddContext, Some(Pin("n1sum", "n1", "sum"))) == [Link(["n1sum", "n2a"])]
    ensures OutgoingLinks(AddContext, Some(Pin("n2sum", "n2", "sum"))) == []
  {
    assert LinkList(AddContext) == [Link(["n1sum", "n2a"])];
  }

  lemma AddSumOutLinks()
    ensures NodeTypePinOutLinks(AddContext, Node("n1", "add"), Sum) == [Destination("n2", "a")]
    ensures NodeTypePinOutLinks(AddContext, Node("n2", "add"), Sum) == []
  {
    AddSumPins();
    AddOutgoing();
    AddLinkDestination();
  }

  lemma AddNodeOutLinks()
    ensures NodeOutLinks(AddContext, Node("n1", "add")) == [Entry("sum", [Destination("n2", "a")])]
    ensures NodeOutLinks(AddContext, Node("n2", "add")) == []
  {
    assert NodeTypeByNode(AddContext, Node("n1", "add")) == AddType;
    assert NodeTypeByNode(AddContext, Node("n2", "add")) == AddType;
    AddOutputs();
    AddSumOutLinks();
    SingleOutput(AddContext, Node("n1", "add"), "sum", Sum);
    SingleOutput(AddContext, Node("n2", "add"), "sum", Sum);
  }

  lemma AddTransformedNodes()
    ensures TransformedNodeOf(AddContext, Node("n1", "add")) == TransformedNode("n1", None, None, None, NumberInputs, [Entry("sum", [Destination("n2", "a")])])
    ensures TransformedNodeOf(AddContext, Node("n2", "add")) == TransformedNode("n2", None, None, None, NumberInputs, [])
  {
    AddInputTypes();
    AddNodeOutLinks();
    assert NodeTypeByNode(AddContext, Node("n1", "add")) == AddType;
    assert NodeTypeByNode(AddContext, Node("n2", "add")) == AddType;
  }

  lemma AddTransformIsMap()
    ensures Transform(AddProject) == MapObj(AddNodes, TransformIn(AddContext))
  {
    AddContextMerged();
    TransformInContext(AddProject, AddContext);
  }

  lemma AddMapNodes()
    ensures MapObj(AddNodes, TransformIn(AddContext)) == [
      Entry("n1", TransformedNode("n1", None, None, None, NumberInputs, [Entry("sum", [Destination("n2", "a")])])),
      Entry("n2", TransformedNode("n2", None, None, None, NumberInputs, []))]
  {
    var t1 := TransformedNodeOf(AddContext, Node("n1", "add"));
    var t2 := TransformedNodeOf(AddContext, Node("n2", "add"));
    MapTwo(AddNodes, TransformIn(AddContext));
    assert MapObj(AddNodes, TransformIn(AddContext)) == [Entry("n1", t1), Entry("n2", t2)];
    AddTransformedNodes();
  }

  lemma MapTwo<V, W>(o: Obj<V>, f: V -> W)
    requires |o| == 2
    ensures MapObj(o, f) == [Entry(o[0].key, f(o[0].value)), Entry(o[1].key, f(o[1].value))]
  {
  }

  /**
   * Two `add` nodes, n1's sum feeding n2's a: n1 gets one out link under
   * `sum`, n2 none, and both have number inputs a and b.
   */
  lemma AddChain()
    ensures Transform(AddProject) == [
      Entry("n1", TransformedNode("n1", None, None, None, NumberInputs, [Entry("sum", [Destination("n2", "a")])])),
      Entry("n2", TransformedNode("n2", None, None, None, NumberInputs, []))]
  {
    AddTransformIsMap();
    AddMapNodes();
  }

  // A source node A whose output `out` feeds the inputs of B and C.

  const Out := NodeTypePin("out", Output, Bool)
  const SourceType := NodeType(None, None, None, [Entry("out", Out)])
  const FanOutPins := [
    Entry("pa", Pin("pa", "A", "out")), Entry("pb", Pin("pb", "B", "in")), Entry("pc", Pin("pc", "C", "in"))]
  const FanOutLinks := [Entry("l1", Link(["pa", "pb"])), Entry("l2", Link(["pa", "pc"]))]
  const FanOutContext := Context(
    MergedPatch([Entry("A", Node("A", "source"))], FanOutPins, FanOutLinks),
    [Entry("source", SourceType)])

  lemma FanOutPinInstance()
    ensures PinByNodeTypePin(FanOutContext, Node("A", "source"), Out) == Some(Pin("pa", "A", "out"))
  {
    var ctx := FanOutContext;
    assert PinList(ctx) == [Pin("pa", "A", "out"), Pin("pb", "B", "in"), Pin("pc", "C", "in")];
    assert FirstSatisfying(PinList(ctx), InstanceOf(Node("A", "source"), Out), 0);
  }

  lemma FanOutOutgoing()
    ensures OutgoingLinks(FanOutContext, Some(Pin("pa", "A", "out"))) == [Link(["pa", "pb"]), Link(["pa", "pc"])]
  {
    var ls := LinkList(FanOutContext);
    assert ls == [Link(["pa", "pb"]), Link(["pa", "pc"])];
    var src := SourceIs(Some("pa"));
    assert FilterSeq(ls[1..][1..], src) == [];
    assert FilterSeq(ls[1..], src) == [Link(["pa", "pc"])];
  }

  lemma FanOutLinkDestinations()
    ensures LinkDestination(FanOutContext, Link(["pa", "pb"])) == Destination("B", "in")
    ensures LinkDestination(FanOutContext, Link(["pa", "pc"])) == Destination("C", "in")
  {
    assert FirstWithKey(FanOutPins, "pb", 1);
    assert FirstWithKey(FanOutPins, "pc", 2);
  }

  lemma FanOutDestinations()
    ensures NodeTypePinOutLinks(FanOutContext, Node("A", "source"), Out) == [Destination("B", "in"), Destination("C", "in")]
  {
    FanOutPinInstance();
    FanOutOutgoing();
    FanOutLinkDestinations();
    TwoDestinations(FanOutContext, Node("A", "source"), Out, Pin("pa", "A", "out"), Link(["pa", "pb"]), Link(["pa", "pc"]));
  }

  lemma TwoDestinations(ctx: Context, owner: Node, ntPin: NodeTypePin, p: Pin, l1: Link, l2: Link)
    requires PinByNodeTypePin(ctx, owner, ntPin) == Some(p)
    requires OutgoingLinks(ctx, Some(p)) == [l1, l2]
    ensures NodeTypePinOutLinks(ctx, owner, ntPin) == [LinkDestination(ctx, l1), LinkDestination(ctx, l2)]
  {
  }

  /** Fan-out to B and C gives exactly two destinations under `out`, B first. */
  lemma FanOut()
    ensures NodeOutLinks(FanOutContext, Node("A", "source")) == [Entry("out", [Destination("B", "in"), Destination("C", "in")])]
  {
    FanOutDestinations();
    FanOutType();
    SingleOutput(FanOutContext, Node("A", "source"), "out", Out);
  }

  lemma FanOutType()
    ensures Outputs(NodeTypeByNode(FanOutContext, Node("A", "source"))) == [Entry("out", Out)]
  {
    assert NodeTypeByNode(FanOutContext, Node("A", "source")) == SourceType;
    var pins := SourceType.pins;
    assert FilterSeq(pins[1..], ValueSatisfies(HasDirection(Output))) == [];
  }

  /** A node type with one output: outLinks is that output's list, or `{}` when it is empty. */
  lemma SingleOutput(ctx: Context, node: Node, k: string, out: NodeTypePin)
    requires Outputs(NodeTypeByNode(ctx, node)) == [Entry(k, out)]
    ensures NodeOutLinks(ctx, node) == if NodeTypePinOutLinks(ctx, node, out) == [] then [] else [Entry(k, NodeTypePinOutLinks(ctx, node, out))]
  {
    var mapped := MapObj([Entry(k, out)], OutLinksOf(ctx, node));
    assert mapped == [Entry(k, NodeTypePinOutLinks(ctx, node, out))];
    assert mapped[1..] == [];
  }

  // A link that has no pins at all, and node A without a pin instance for `out`.

  const LoosePinsContext := Context(
    MergedPatch([Entry("A", Node("A", "source"))], [], [Entry("l", Link([]))]),
    [Entry("source", SourceType)])

  /**
   * The `{}` standing for a missing pin instance has no id, and neither has
   * a link without pins: the two match, and `out` gets the destination `{}`.
   */
  lemma SourcelessLinkMatchesMissingPin()
    ensures NodeOutLinks(LoosePinsContext, Node("A", "source")) == [Entry("out", [NoDestination])]
  {
    var ctx := LoosePinsContext;
    assert PinByNodeTypePin(ctx, Node("A", "source"), Out) == None;
    assert LinkList(ctx) == [Link([])];
    assert OutgoingLinks(ctx, None) == [Link([])];
    assert LinkDestination(ctx, Link([])) == NoDestination;
    assert NodeTypePinOutLinks(ctx, Node("A", "source"), Out) == [NoDestination];
    assert NodeTypeByNode(ctx, Node("A", "source")) == SourceType;
    assert Outputs(SourceType) == [Entry("out", Out)];
  }

  // Two patches that both define pin p1.

  const EarlyPatch := Patch("early", [], [Entry("p1", Pin("p1", "n1", "a")), Entry("p2", Pin("p2", "n1", "b"))], [])
  const LatePatch := Patch("late", [], [Entry("p1", Pin("p1", "n9", "z"))], [])

  /** The later patch's pin p1 replaces the earlier one whole; p1 keeps its place. */
  lemma LaterPatchWins()
    ensures MergePatches([EarlyPatch, LatePatch]).pins == [Entry("p1", Pin("p1", "n9", "z")), Entry("p2", Pin("p2", "n1", "b"))]
  {
    var ps := [EarlyPatch, LatePatch];
    assert ps[..1] == [EarlyPatch];
    SinglePatch(EarlyPatch);
    var l, r := EarlyPatch.pins, LatePatch.pins;
    assert Prop(r, "p1") == Some(Pin("p1", "n9", "z"));
    assert Prop(r, "p2") == None;
    assert Overwrite(l, r) == [Entry("p1", Pin("p1", "n9", "z")), Entry("p2", Pin("p2", "n1", "b"))];
    assert "p1" in Keys(l);
    assert Additions(r, l) == [];
  }
}
