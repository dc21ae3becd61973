# sst-rackhelpers connector and JSON helpers, modelled in Dafny

sst-rackhelpers is a header-only helper layer for VCV Rack plugin modules. This project models its two
pieces of logic against an abstract stand-in for the host:

- **Peer and neighbor connection** (`include/sst/rackhelpers/module_connector.h`). A port widget's context
  menu finds the MindMeld MixMaster / MixMasterJr and AuxSpander / AuxSpanderJr modules in the patch and
  pairs their stereo ports with a channel. It then offers one submenu per peer. Each entry in a submenu is
  either an "(In Use)" label or an item that, when clicked, adds cables to the engine and groups their
  undo records into one complex history action. A second menu block offers to cable the module's primary
  output buses to a neighbor-connectable module next to it.
- **Typed JSON extraction** (`include/sst/rackhelpers/json.h`). `convertFromJson<T>` returns a value only
  when a node is non-null and carries the tag for `T`. `jsonSafeGet<T>` looks a key up in an object and
  then converts the member it finds.

Files:

- `wrappers.dfy`: `Option` (a null pointer or empty `std::optional` is `None`).
- `host.dfy` (module `Host`): the host objects as values and classes. Modules are `Module` values with
  their ports, model, neighbor capability, primary buses and expander ids. `Engine` holds the registry
  (`getModuleIds`/`getModule`) and the cable list (`addCable`). `History` and `ComplexAction` hold undo
  records. `Menu` holds the entries added to a menu: labels, items, separators and submenu items.
- `json.dfy` (module `Json`): the JSON datatype, the five specialisations, the unspecialised template
  (target `OtherTarget`), the tag-dispatched `ConvertFromJson`, `ObjectGet` (json_object_get) and
  `JsonSafeGet`.
- `module_connector.dfy` (module `ModuleConnector`): peer discovery, channel counts, port pairs, label
  trimming, the menu builders, item activation, and the `PortConnectionMixin` widget.

Menu callbacks are represented by what they capture. An item's click lambda is an `ItemAction`. A
submenu's builder lambda is a `SubmenuAction` naming the peer, the bank of ports and the ordered port
pair. Building a menu and activating an item are separate operations: `Activate` runs an item's click,
and `OpenSubmenu` builds a submenu. Each menu builder is a method with a loop. Its `ensures` says that
the menu's entries are the old entries followed by a specification function of the module state. The
lemmas state what those functions promise.

The label trim cuts the port name at the first occurrence of `" left"`, wherever it occurs. It is not
limited to removing a trailing suffix. The model follows the code here.

## Model

| member | source | states |
|---|---|---|
| `ModuleConnector.FindPeers` | include/sst/rackhelpers/module_connector.h:31-43 | the scan over the engine's module ids returns exactly the registry-order filter `PeersIn` of the non-null modules of one kind |
| `ModuleConnector.FindMixMasters` | include/sst/rackhelpers/module_connector.h:27-45 | returns the MixMaster filter of the registry, and every module returned is a MindMeld MixMaster or MixMasterJr |
| `ModuleConnector.FindAuxSpanders` | include/sst/rackhelpers/module_connector.h:83-101 | returns the AuxSpander filter of the registry, and every module returned is a MindMeld AuxSpander or AuxSpanderJr |
| `ModuleConnector.PeersInExactly` | include/sst/rackhelpers/module_connector.h:31-43 | a module is discovered iff it is the non-null module of some registered id, its plugin is MindMeld and its name is one of the kind's two names; every other module is excluded |
| `ModuleConnector.PeersInAppend` | include/sst/rackhelpers/module_connector.h:31-43 | discovery keeps registry order: scanning `a + b` gives the peers of `a` followed by the peers of `b` |
| `ModuleConnector.MixMasterNumInputs` | include/sst/rackhelpers/module_connector.h:47-55 | MixMaster has 16 channels and MixMasterJr 8; the count is non-zero exactly for those two names (MindMeld plugin required) |
| `ModuleConnector.AuxSpanderNumInputs` | include/sst/rackhelpers/module_connector.h:57-65 | AuxSpander and AuxSpanderJr have 4 channels; every other name has 0 (MindMeld plugin required) |
| `ModuleConnector.DiscoveredPeersHaveChannels` | include/sst/rackhelpers/module_connector.h:38-65 | every discovered MixMaster has a non-zero channel count and every discovered AuxSpander has 4 |
| `ModuleConnector.MixMasterInput` | include/sst/rackhelpers/module_connector.h:67-70 | channel c's left input is the even port 2c and its right the next, odd port; halving either port gives back c |
| `ModuleConnector.AuxSpanderReturn` | include/sst/rackhelpers/module_connector.h:72-75 | interleaved like the MixMaster inputs: left even, right the next port, both halving to the channel |
| `ModuleConnector.AuxSpanderSend` | include/sst/rackhelpers/module_connector.h:77-81 | the left send is the channel number and the right is four above it; channels 0..3 put lefts in 0..3 and rights in 4..7 |
| `ModuleConnector.PairsDisjoint` | include/sst/rackhelpers/module_connector.h:67-81 | the two ports of a pair differ, and pairs of distinct channels share no port (for sends, among channels 0..3) |
| `ModuleConnector.InterleavedPortsAreRange` | include/sst/rackhelpers/module_connector.h:67-75 | the MixMaster-input and AuxSpander-return pairs (2c, 2c+1) of channels 0..n-1 list exactly the ports 0..2n-1 in order |
| `ModuleConnector.SendPortsPermuteRange` | include/sst/rackhelpers/module_connector.h:77-81 | the AuxSpander send pairs (c, c+4) of channels 0..3 cover the ports 0..7, each exactly once |
| `ModuleConnector.SendPortsSplit` | include/sst/rackhelpers/module_connector.h:77-81 | the send pairs of channels 0..n-1 hold, as a multiset, the lefts 0..n-1 and the rights 4..n+3 |
| `ModuleConnector.FindFromFindsFirst` | include/sst/rackhelpers/module_connector.h:138 | `std::string::find`: the result is an occurrence at or after the start with no earlier one; no result means no occurrence |
| `ModuleConnector.TrimLeftCutsFirstLeft` | include/sst/rackhelpers/module_connector.h:137-140 | the result is a prefix of the name and never contains " left"; a name without " left" is unchanged; otherwise the first " left" starts right after the result (the same trim serves output names at 166-169) |
| `ModuleConnector.OutputConnectorEntryShape` | include/sst/rackhelpers/module_connector.h:135-155 | the entry is a label reading the trimmed input name plus " (In Use)" iff either input of the pair is connected; otherwise an item titled with the trimmed name whose action, named "connect to " plus that title, connects the pair from the source's ports |
| `ModuleConnector.AddOutputConnector` | include/sst/rackhelpers/module_connector.h:132-156 | appends exactly the one output-connector entry to the menu |
| `ModuleConnector.InputConnectorEntries` | include/sst/rackhelpers/module_connector.h:158-180 | nothing iff both ports are negative, else exactly one item titled with the trimmed output name whose action, named "connect to " plus that title, cables the source's portL/portR from the module's pair |
| `ModuleConnector.AddInputConnector` | include/sst/rackhelpers/module_connector.h:158-180 | appends exactly the input-connector entries (none when both ports are negative) |
| `ModuleConnector.InputBankFitsExactly` | include/sst/rackhelpers/module_connector.h:192-196 | the bound on a bank's channel count holds iff both ports of every channel below it are inputs of the peer |
| `ModuleConnector.OutputConnectorRunAt` | include/sst/rackhelpers/module_connector.h:192-196 | entry c of the loop's entries is the output-connector entry of channel c's pair, and that pair's ports are inputs |
| `ModuleConnector.InputConnectorRunAt` | include/sst/rackhelpers/module_connector.h:227-232 | when a port is present, entry c of the loop's entries is channel c's input-connector item |
| `ModuleConnector.OutputConnectorRunShape` | include/sst/rackhelpers/module_connector.h:192-196 | the loop's entries are one per channel, in channel order, entry c built from channel c's pair |
| `ModuleConnector.InputConnectorRunShape` | include/sst/rackhelpers/module_connector.h:227-232 | the loop adds nothing when both ports are negative, otherwise one entry per channel in channel order |
| `ModuleConnector.AddOutputConnectors` | include/sst/rackhelpers/module_connector.h:192-196 | the loop appends the output-connector entries of channels 0..n-1 |
| `ModuleConnector.AddInputConnectors` | include/sst/rackhelpers/module_connector.h:227-232 | the loop appends the input-connector entries of channels 0..n-1 |
| `ModuleConnector.SubmenuEntries` | include/sst/rackhelpers/module_connector.h:182-233 | a peer submenu is empty iff the peer has no channels, and otherwise starts with its heading and a separator |
| `ModuleConnector.OutputSubmenuShape` | include/sst/rackhelpers/module_connector.h:182-215 | with no channels the submenu is empty; otherwise it is a heading, a separator, then one entry per channel; entry c is the label "<trimmed input 2c name> (In Use)" iff input 2c or 2c+1 is connected, else exactly the item for the pair (2c, 2c+1) with the source's ports, titled with the trimmed name |
| `ModuleConnector.OutputSubmenuEntry` | include/sst/rackhelpers/module_connector.h:182-215 | entry c+2 of an output submenu is the output-connector entry of channel c's interleaved pair (2c, 2c+1) |
| `ModuleConnector.OutputItemCables` | include/sst/rackhelpers/module_connector.h:146-154 | clicking channel c's item cables the peer's input 2c from the source's left output and then 2c+1 from its right, each only when that source port is present |
| `ModuleConnector.InputSubmenuShape` | include/sst/rackhelpers/module_connector.h:217-233 | with no channels the AuxSpander send submenu is empty; otherwise it is a heading, a separator, then no items if both ports are negative, else four items, item c titled with the trimmed name of output c and connecting the send pair (c, c+4) to the source's portL/portR |
| `ModuleConnector.InputItemCables` | include/sst/rackhelpers/module_connector.h:171-179 | clicking channel c's send item cables the source's input portL from the peer's output c and then portR from c+4, each only when that port is present |
| `ModuleConnector.OutputsToMixMasterSubMenu` | include/sst/rackhelpers/module_connector.h:182-197 | appends exactly the MixMaster-input submenu entries |
| `ModuleConnector.OutputsToAuxSpanderSubMenu` | include/sst/rackhelpers/module_connector.h:199-215 | appends exactly the AuxSpander-return submenu entries |
| `ModuleConnector.InputsFromAuxSpanderSubMenu` | include/sst/rackhelpers/module_connector.h:217-233 | appends exactly the AuxSpander-send submenu entries |
| `ModuleConnector.OpenSubmenu` | include/sst/rackhelpers/module_connector.h:333-346 | a submenu's builder callback builds the submenu of the bank it captured, for the peer it captured |
| `ModuleConnector.PeerSubmenusShape` | include/sst/rackhelpers/module_connector.h:331-347 | one submenu entry per peer, in discovery order, titled with the peer's model name and capturing the peer and the ordered port pair |
| `ModuleConnector.AddPeerSubmenus` | include/sst/rackhelpers/module_connector.h:331-347 | the loop appends one submenu entry per peer, in order |
| `ModuleConnector.NeighborEntry` | include/sst/rackhelpers/module_connector.h:275-297 | the entry is the label "Connect <output bus> to <neighbor model> <input bus> (In Use)" iff the bus's first input is connected, or its second is present and connected; otherwise an item with that title, without the suffix, whose action (named by the title) cables that bus pair from the output bus |
| `ModuleConnector.InBusEntriesShape` | include/sst/rackhelpers/module_connector.h:273-298 | one entry per neighbor input bus, in order, none of them a separator |
| `ModuleConnector.OutBusSeparators` | include/sst/rackhelpers/module_connector.h:265-267 | the neighbor entries hold exactly one separator per output bus |
| `ModuleConnector.OutBusLength` | include/sst/rackhelpers/module_connector.h:265-299 | the neighbor entries number one per output bus plus one per input bus for each output bus that carries the port |
| `ModuleConnector.NeighborMenuGated` | include/sst/rackhelpers/module_connector.h:244-263 | the neighbor menu is non-empty iff both modules are neighbor-connectable and both bus lists are present and non-empty; then it holds one separator per output bus |
| `ModuleConnector.ConnectOutputToNeighborInput` | include/sst/rackhelpers/module_connector.h:235-300 | the gates and the nested loops append exactly the gated neighbor entries |
| `ModuleConnector.AddOutBusEntries` | include/sst/rackhelpers/module_connector.h:265-299 | the outer loop appends, for each output bus in order, a separator and then, when the bus carries the port, that bus's input-bus entries |
| `ModuleConnector.AddInBusEntries` | include/sst/rackhelpers/module_connector.h:273-298 | the inner loop appends one neighbor entry per input bus, in order |
| `ModuleConnector.PlannedCables` | include/sst/rackhelpers/module_connector.h:146-179 | an item's click adds at most two cables, all in the item's colour |
| `ModuleConnector.ConnectorCables` | include/sst/rackhelpers/module_connector.h:146-179 | a connector item adds one cable per non-negative port, left before right; output connectors cable the peer's inputs from the source, input connectors the source's inputs from the peer |
| `ModuleConnector.NeighborCables` | include/sst/rackhelpers/module_connector.h:286-296 | a neighbor item adds one cable per side on which both buses have a port, each into the neighbor from this module: first the neighbor's first input bus port from this module's first output bus port, last the second from the second |
| `ModuleConnector.MakeCableBetween` | include/sst/rackhelpers/module_connector.h:103-130 | appends the cable to the engine; its record goes to the complex action when one is given (history unchanged), otherwise to the history |
| `ModuleConnector.Activate` | include/sst/rackhelpers/module_connector.h:146-296 | any item's click (the lambdas at 146-154, 171-179 and 286-296) appends exactly its planned cables to the engine's list and pushes one complex action holding their records, in order |
| `ModuleConnector.ConnectToInputsClick` | include/sst/rackhelpers/module_connector.h:146-154 | an output connector's click appends its planned cables (the peer's inputs from the source's outputs) and pushes one complex action of their records under the item's action name |
| `ModuleConnector.ConnectFromOutputsClick` | include/sst/rackhelpers/module_connector.h:171-179 | an input connector's click appends its planned cables (the source's inputs from the peer's outputs) and pushes one complex action of their records |
| `ModuleConnector.ConnectToNeighborClick` | include/sst/rackhelpers/module_connector.h:286-296 | a neighbor item's click appends its planned cables (neighbor input bus from this module's output bus, side by side) and pushes one complex action of their records |
| `ModuleConnector.StereoPair` | include/sst/rackhelpers/module_connector.h:322-325 | after the swap, if the companion exists then left <= right, the multiset of the two ports is unchanged, and an ordered or absent companion leaves the pair as it was |
| `ModuleConnector.OrderStereoPair` | include/sst/rackhelpers/module_connector.h:354-357 | the in-place swap orders the two ports (when the companion exists) and keeps their multiset |
| `ModuleConnector.ContextSubmenusOrdered` | include/sst/rackhelpers/module_connector.h:322-376 | every peer submenu in the context menu captured an ordered pair: a present right port is not below the left |
| `ModuleConnector.InputPeerEntriesGated` | include/sst/rackhelpers/module_connector.h:359-376 | the input-from-AuxSpander block adds nothing when either port is connected, else a separator followed by, for each AuxSpander in order, its send submenu capturing the ordered pair |
| `ModuleConnector.PortConnectionMixin.AppendContextMenu` | include/sst/rackhelpers/module_connector.h:310-378 | appends the neighbor block, the output-to-peer block and the input-from-peer block, in that order |
| `ModuleConnector.PortConnectionMixin.AppendNeighborPart` | include/sst/rackhelpers/module_connector.h:312-315 | the neighbor block (right expander) when the flag is set |
| `ModuleConnector.PortConnectionMixin.AppendOutputPart` | include/sst/rackhelpers/module_connector.h:317-348 | a separator if any peer exists, then a submenu per MixMaster and then per AuxSpander, with the ordered pair |
| `ModuleConnector.PortConnectionMixin.AppendInputPart` | include/sst/rackhelpers/module_connector.h:350-377 | the gated input-from-AuxSpander block with the ordered pair |
| `Json.StringFromJson` | include/sst/rackhelpers/json.h:12-22 | a value iff the node is non-null and tagged STRING; the value is its text up to the first NUL, as `std::string` reads the `char *` |
| `Json.BoolFromJson` | include/sst/rackhelpers/json.h:23-33 | a value iff the tag is TRUE or FALSE; the value is true exactly for TRUE |
| `Json.IntFromJson` | include/sst/rackhelpers/json.h:34-44 | a value iff the tag is INTEGER (REAL is rejected); the value is the node's number |
| `Json.FloatFromJson` | include/sst/rackhelpers/json.h:46-56 | a value iff the tag is REAL (INTEGER is rejected); the value is the node's payload |
| `Json.DoubleFromJson` | include/sst/rackhelpers/json.h:59-69 | a value iff the tag is REAL (INTEGER is rejected); the value is the node's payload |
| `Json.ConvertFromJson` | include/sst/rackhelpers/json.h:9-69 | tag dispatch over the specialisations: a value returned always has the requested C++ type |
| `Json.ConvertAcceptsExactly` | include/sst/rackhelpers/json.h:9-69 | every conversion yields a value iff the node is non-null and its tag is one the tag table lists for the target |
| `Json.ConvertNullIsEmpty` | include/sst/rackhelpers/json.h:14-15 | a null node yields empty for every target |
| `Json.UnspecialisedIsEmpty` | include/sst/rackhelpers/json.h:9-11 | the unspecialised template always yields empty |
| `Json.ConvertedValue` | include/sst/rackhelpers/json.h:19-66 | for each target, a converted value is the node's own text (up to a NUL), truth value, number or real payload |
| `Json.NoNumericCoercion` | include/sst/rackhelpers/json.h:39-64 | a REAL node does not convert to int, and an INTEGER node does not convert to float or double |
| `Json.ObjectGet` | include/sst/rackhelpers/json.h:74 | a member is found iff the root is a non-null object holding the key; it is that member |
| `Json.CString` | include/sst/rackhelpers/json.h:74 | a string as C code reads it, through `c_str()` here and through the `char *` of a STRING value: the longest NUL-free prefix, ending just before the first NUL |
| `Json.JsonSafeGet` | include/sst/rackhelpers/json.h:72-80 | empty when no member is found under the key's C form; a value returned has the requested type |
| `Json.SafeGetIsConvertOfMember` | include/sst/rackhelpers/json.h:72-80 | with the key's C form present in an object it equals the conversion of that member; otherwise it is empty |
| `Json.NulFreeIsWhole` | include/sst/rackhelpers/json.h:74 | a key without a NUL is looked up whole (and a NUL-free STRING value is returned whole) |
| `Json.EmbeddedNulCutsKey` | include/sst/rackhelpers/json.h:74 | the key "a\0b" finds the member "a" of an object: a key is looked up by its prefix before the NUL |

The host's own operations (`Engine.AddCable`, `History.Push`, `ComplexAction.Push`, `Menu.AddChild`) are
the stand-in's API and are not part of the repository.

## Left out

- Rendering: `CableWidget`, `APP->scene->rack->addCable` and the cable colour. A colour is an opaque
  `Color` token passed in for `getNextCableColor`.
- ModuleConnector.ConnectOutputToNeighborInput: uses one colour token for every item, whereas the source
  asks the rack for the next colour once per item, because colour is opaque here.
- Object lifetimes, `new` and `dynamic_cast`. Neighbor connectability is a boolean flag on `Module`. An
  expander id that is not in the registry reads as a null neighbor.
- `neighbor_connectable.h` is not part of this model. `getPrimaryOutputs`/`getPrimaryInputs` are the
  `Module` fields `primaryOutputs`/`primaryInputs`: an optional sequence of labelled port pairs.
- Port connection flags are a snapshot in each `Module`. In the host they follow from the cable list. The
  model's `Activate` appends cables but does not update any module's connected flags.
- The unused module-pointer argument of `mixMasterInput`, `auxSpanderReturn` and `auxSpanderSend`.
- The `assert`s on the plugin name are preconditions (`pluginName == "MindMeld"`). So are the port
  indices that the code looks up without a guard: the pairs in a peer submenu and the widget's own inputs
  in the input-from-AuxSpander block (`CanAppend`).
- The neighbor's input buses are taken to fit its inputs (`NeighborFits`, `BusFits`; a first port not
  below 0), but only when the menu reads them: the gates are open and some output bus carries the port.
  This is assumed as an invariant of the neighbor interface, which `neighbor_connectable.h` would have to give.
- The widget's registry entry must carry its own id (`CanAppend`). The host guarantees this.
- The jansson library's internals. JSON is a datatype, and an object's members are a map with unique keys.
- Json.FloatFromJson: does not model the narrowing of the double payload to `float`, because REAL
  payloads are kept abstract (`RealToken`); float and double yield the same token.
- Json.IntFromJson: does not model the narrowing of `json_int_t` to `int`; integers are unbounded.
- Host threading: every operation is sequential.
- The AuxSpander send submenu's heading reads "Connect to AuxSpander Return", as in the code.
