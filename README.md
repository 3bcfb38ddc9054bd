# xod-espruino transformer, modelled in Dafny

The xod-espruino target turns a XOD project into the node table its
runtime evaluates. `transform(project)` joins all patches of the project
into one patch, and then builds one record per node:

- the node's `id`;
- the `pure`, `setup` and `evaluate` fields of its node type;
- `inputTypes`: the native JavaScript type of each input pin;
- `outLinks`: for each output pin, the `{nodeId, key}` destinations that
  its links feed.

The whole of `transform` is modelled here as pure Dafny functions on
values. There are four files:

- `ramda.dfy` (module `Ramda`) models JavaScript plain objects and the
  Ramda combinators the transformer uses (`prop`/`propOr`, `values`,
  `nth`, `map`, `filter`, `find`, `merge`, `reduce(merge)`). An object is
  an association list in key-enumeration order, so every order the source
  depends on can be stated: link order, "first match" pin lookup, merge
  order.
- `transformer.dfy` (module `Transformer`) has one function per closure of
  `transform`. The merged patch and the node types, which the closures
  capture, are passed in a `Context`.
- `properties.dfy` (module `TransformerProperties`) holds the all-inputs
  lemmas.
- `scenarios.dfy` (module `TransformerScenarios`) works concrete projects
  through the model: an `add` chain, a fan-out, a link without pins, and
  two patches that collide.

Where the transformer's type comment and its code differ, the model
follows the code:

- `outLinks` is an object keyed by output pin key: `R.map` over the object
  of output pins, then `R.reject(R.isEmpty)`. It is not a list. For a node
  with no outputs it is `{}`, not `[]`.

The merge is shallow, as the code's own comment says. When two patches hold
an entry under the same id, the later entry replaces the earlier one whole;
its fields are not merged. `R.mergeWith(R.merge)` goes only two levels deep:
patch, then collection.

## Model

| member | source | states |
|---|---|---|
| Ramda.Prop | targets/xod-espruino/transformer.js:26 | A property read gives None exactly when the key is absent. Otherwise it gives the value of the first entry with that key. |
| Ramda.Values | targets/xod-espruino/transformer.js:25 | `R.values`: one value per entry, entry i's value at position i. |
| Ramda.Nth | targets/xod-espruino/transformer.js:70 | `R.nth(i)` is defined exactly when i is inside the list, and is then element i. |
| Ramda.MapSeq | targets/xod-espruino/transformer.js:97-99 | `R.map` on a list: same length, element i is f of input element i. |
| Ramda.MapObj | targets/xod-espruino/transformer.js:57 | `R.map` on an object: same length, entry i keeps its key and holds f of its old value. |
| Ramda.FilterSeq | targets/xod-espruino/transformer.js:76-82 | `R.filter` on a list: its length is the number of matching elements, it holds only matching elements of the input, and it holds every one of them. |
| Ramda.FilterSeqPosition | targets/xod-espruino/transformer.js:76-82 | Each matching element sits in the filtered list at index "number of matching elements before it". |
| Ramda.FilterSeqOrder | targets/xod-espruino/transformer.js:76-82 | Two matching elements keep their relative order after filtering. |
| Ramda.Find | targets/xod-espruino/transformer.js:88-92 | `R.find` gives None exactly when nothing matches. Otherwise it gives the first matching element. |
| Ramda.FilterObj | targets/xod-espruino/transformer.js:49 | `R.filter` on an object keeps only entries of the input whose value matches, and keeps all of them; no key is invented. |
| Ramda.FilterObjProp | targets/xod-espruino/transformer.js:49 | On a unique-keyed object, after filtering, key k is present exactly when its value matches, and then it holds the same value. |
| Ramda.FilterObjUnique | targets/xod-espruino/transformer.js:104 | Filtering keeps the keys unique. |
| Ramda.FilterSeqUnique | targets/xod-espruino/transformer.js:49 | Filtering an object's entries keeps its keys unique. |
| Ramda.MapObjProp | targets/xod-espruino/transformer.js:57 | `R.map` on an object: key k maps to f of its old value, and is absent when it was absent. |
| Ramda.Assign | targets/xod-espruino/transformer.js:14 | `R.merge(l, r)` has exactly the keys of l and r together, and l's keys keep their positions. |
| Ramda.AssignProp | targets/xod-espruino/transformer.js:14 | Reading key k of `R.merge(l, r)` gives r's value when r has k, and l's otherwise. |
| Ramda.AssignOrder | targets/xod-espruino/transformer.js:14 | After l's entries, `R.merge(l, r)` holds exactly r's entries whose key l lacks, in r's order. |
| Ramda.AssignUnique | targets/xod-espruino/transformer.js:14 | Merging two objects whose keys are unique gives unique keys. |
| Ramda.AssignAll | targets/xod-espruino/transformer.js:14 | The reduce-merge of a list of objects has every key of the last object. |
| Ramda.AssignAllUnique | targets/xod-espruino/transformer.js:14 | The reduce-merge of objects with unique keys has unique keys. |
| Ramda.AssignAllKeys | targets/xod-espruino/transformer.js:14 | The merge of a list of objects has exactly the keys of some object in the list. |
| Ramda.AssignAllLastWins | targets/xod-espruino/transformer.js:14 | A key takes its value whole from the last object in the list that has it. |
| TransformerProperties.MergePatchesFieldwise | targets/xod-espruino/transformer.js:12-17 | Folding patches with the two-level merge is the same as merging `nodes`, `pins` and `links` each on their own. |
| Transformer.MergeInto | targets/xod-espruino/transformer.js:14 | Each merged collection has the keys of the accumulator and of the patch. Unique keys stay unique. |
| Transformer.MergePatches | targets/xod-espruino/transformer.js:12-17 | Patches whose collections repeat no key merge into collections that repeat no key. |
| Transformer.MergedPatchOf | targets/xod-espruino/transformer.js:12-17 | The same, for the values of the project's `patches` object. |
| TransformerProperties.SinglePatch | targets/xod-espruino/transformer.js:12-17 | One patch merges to its own collections, and its `id` is dropped. |
| TransformerProperties.MergedKeys | targets/xod-espruino/transformer.js:12-17 | Each merged collection's keys are the union of that collection's keys over all patches. |
| TransformerProperties.MergedLastWins | targets/xod-espruino/transformer.js:12-17 | A colliding node, pin or link id takes the whole value of the last patch that has it. |
| Transformer.PinById | targets/xod-espruino/transformer.js:26 | `pinById` finds a pin exactly when the id, or "undefined" for an undefined id, is a key of the merged pins. The pin it finds is the first one stored under that key. |
| Transformer.PinList | targets/xod-espruino/transformer.js:25 | The list `pinByNodeTypePin` searches: the merged pins' values, in key order. |
| Transformer.LinkList | targets/xod-espruino/transformer.js:29 | The list `outgoingLinks` filters: the merged links' values, in key order. |
| Transformer.NodeTypeById | targets/xod-espruino/transformer.js:31-32 | An unknown type id gives the empty node type. A known one gives the first node type stored under it. |
| Transformer.NodeTypeByNode | targets/xod-espruino/transformer.js:35 | A node whose `typeId` is not a node type gets the empty type. Otherwise it gets the first node type stored under its `typeId`. |
| Transformer.NativeType | targets/xod-espruino/transformer.js:41-46 | The four `R.when` steps map PULSE and BOOL to Boolean, NUMBER to Number and STRING to String, each in both directions. Any other tag comes back unchanged. |
| Transformer.FilterByDirection | targets/xod-espruino/transformer.js:49-53 | Gives exactly the type's pin entries of the given direction. |
| Transformer.Inputs | targets/xod-espruino/transformer.js:52 | Exactly the type's INPUT pin entries. |
| Transformer.Outputs | targets/xod-espruino/transformer.js:53 | Exactly the type's OUTPUT pin entries. |
| TransformerProperties.OutputsOrder | targets/xod-espruino/transformer.js:49-53 | Output pin i of a node type sits in `outputs` at index "number of output pins declared before it", so `outputs` keeps the declared pin order. |
| Transformer.InputTypes | targets/xod-espruino/transformer.js:56-59 | Each entry is an INPUT pin's key with the native type of the pin's type. Every input pin has such an entry. |
| TransformerProperties.InputTypesLookup | targets/xod-espruino/transformer.js:49-59 | `inputTypes[k]` is present exactly when pin k is an input, and then it is that pin's native type. Output pins never appear. |
| Transformer.TransformedNodeTypeOf | targets/xod-espruino/transformer.js:62-65 | `pure`, `setup` and `evaluate` are the node type's own. `inputTypes` is the type's `inputTypes` (see InputTypes and InputTypesLookup), so it is keyed by exactly the input pins. |
| Transformer.TransformedNodeOf | targets/xod-espruino/transformer.js:111-115 | The record keeps the node's id and takes its type's behaviour fields. `inputTypes` is the type's `inputTypes` and `outLinks` is `nodeOutLinks(node)`, so `inputTypes` is keyed by the type's inputs and `outLinks` holds only keys of the type's outputs. |
| TransformerProperties.MissingNodeType | targets/xod-espruino/transformer.js:31-38 | A node whose typeId is not a node type gets no `pure`/`setup`/`evaluate`, empty `inputTypes` and empty `outLinks`, and keeps its id. |
| Transformer.LinkDestination | targets/xod-espruino/transformer.js:68-73 | A link gives `{nodeId, key}` of the pin stored under `pins[1]` exactly when such a pin exists. Otherwise it gives `{}`. |
| Transformer.OutgoingLinks | targets/xod-espruino/transformer.js:76-82 | Gives exactly the links of the link list whose `pins[0]` equals the pin's id. |
| TransformerProperties.OutgoingLinksInOrder | targets/xod-espruino/transformer.js:76-82 | Each such link sits at the position given by the number of such links declared before it, so link-list order is kept. |
| Transformer.PinByNodeTypePin | targets/xod-espruino/transformer.js:85-93 | Gives None (`{}`) exactly when no pin has the owner's node id and the type pin's key. Otherwise it gives the first such pin in the pin list. |
| TransformerProperties.AbsentPinOutLinks | targets/xod-espruino/transformer.js:85-100 | With no pin instance, the destination list is empty exactly when every link has a `pins[0]`. |
| Transformer.NodeTypePinOutLinks | targets/xod-espruino/transformer.js:96-100 | The destination list has one entry per outgoing link: entry i is the destination of outgoing link i. |
| TransformerProperties.DestinationsInOrder | targets/xod-espruino/transformer.js:96-100 | Link i from the output's pin instance gives the entry at position "number of earlier links from that pin", and that entry is its `linkDestination`. |
| TransformerProperties.FanOutOrder | targets/xod-espruino/transformer.js:96-100 | Two links from one output give two entries in declaration order. |
| Transformer.NodeOutLinks | targets/xod-espruino/transformer.js:103-108 | Every entry is non-empty and is the destination list of an OUTPUT pin of the node's type, under that pin's key. Every output with a non-empty list is present. |
| TransformerProperties.NodeOutLinksLookup | targets/xod-espruino/transformer.js:103-108 | `outLinks[k]` is present exactly when k is an output pin whose destination list is non-empty, and then it holds that list. |
| TransformerProperties.NodeOutLinksPosition | targets/xod-espruino/transformer.js:103-108 | Output i with a non-empty list sits in `outLinks` at index "number of earlier outputs with a non-empty list". There it holds its key and its list. |
| TransformerProperties.NodeOutLinksOrder | targets/xod-espruino/transformer.js:103-108 | Two outputs with destinations appear in `outLinks` in the type's output order. |
| Transformer.Transform | targets/xod-espruino/transformer.js:117 | Entry i of the result is merged node i, under the same key, transformed. |
| TransformerProperties.TransformKeys | targets/xod-espruino/transformer.js:117 | The result's keys are the keys of the merged `nodes`. |
| TransformerProperties.TransformLookup | targets/xod-espruino/transformer.js:111-117 | Under each node key sits that node, transformed, and its `id` is the node's own `id`. |
| TransformerProperties.TransformedInputTypes | targets/xod-espruino/transformer.js:111-117 | In the table, node k's `inputTypes[pk]` is the native type of pin pk of its type when pk is an input, and absent otherwise. |
| TransformerProperties.TransformedOutLinks | targets/xod-espruino/transformer.js:103-117 | In the table, node k's `outLinks[pk]` is output pk's destination list when that list is non-empty, and absent otherwise. |
| TransformerProperties.TransformUnique | targets/xod-espruino/transformer.js:111-117 | If no patch repeats a key, the table repeats no node key. |
| TransformerProperties.EmptyProject | targets/xod-espruino/transformer.js:16-17 | No patches and no node types give the empty table. |
| TransformerScenarios.AddChain | targets/xod-espruino/transformer.js:96-117 | Two `add` nodes where n1's sum feeds n2's a: n1 gets `outLinks` `{sum: [{nodeId: n2, key: a}]}`, n2 none, and both get `inputTypes` `{a: Number, b: Number}`. |
| TransformerScenarios.FanOut | targets/xod-espruino/transformer.js:96-108 | An output linked to B and C gives exactly two destinations, B then C. |
| TransformerScenarios.SourcelessLinkMatchesMissingPin | targets/xod-espruino/transformer.js:76-93 | A link with no pins matches an output that has no pin instance. That output then gets the destination `{}`. |
| TransformerScenarios.LaterPatchWins | targets/xod-espruino/transformer.js:12-17 | A pin redefined by a later patch takes the later value whole and keeps its earlier place. |

## Left out

- Ramda semantics outside the object-of-collections case are not modelled. For example, `R.merge` applied to two patches' string `id`s, or other top-level patch fields. The merge keeps only `nodes`, `pins` and `links`, and `R.omit('id')` drops the `id`.
- The modules `app/constants/pinDirection` and `app/constants/pinType` are not part of this model. Their tags are modelled as closed datatypes. The model assumes that the name an `Other` or `OtherDirection` tag carries never spells one of the known tags.
- `pure`, `setup` and `evaluate` are opaque payloads, copied through.
- The native constructors `Boolean`, `Number` and `String` become datatype tags.
- Nodes, pins, node-type pins and links are assumed to carry every field they use. A link's `pins` is always an array (`R.nth` on an undefined `pins` would throw). No field holds `null`. So `R.propOr`'s fallback on null values is not modelled.
- Key order is insertion order. JavaScript lists integer-like keys first, in ascending order; the model does not.
- JSON objects never repeat a key. The association lists can, so the lemmas that look a key up in a node type's pins require `UniqueKeys`. `Transformer.MergedPatchOf` and `TransformerProperties.TransformUnique` show that the merged collections and the result keep keys unique once the patches do.
- Reading `.xod` files and the runtime that consumes the table are not part of this component.
