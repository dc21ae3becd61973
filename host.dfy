/**
 * An abstract stand-in for the host objects the connector helpers read and
 * change: the engine's module registry and cable list, the undo history,
 * complex (grouped) history actions, and context menus.
 */
module Host {
  import opened Wrappers

  /** A module pointer: modules are identified by their engine id. */
  type ModuleId = nat

  /** A cable colour, kept opaque. */
  datatype Color = Color(token: nat)

  /** A module's model: its name and the name of the plugin it comes from. */
  datatype Model = Model(name: string, pluginName: string)

  /** An input port: the name in its port info and whether a cable is plugged in. */
  datatype Port = Port(name: string, connected: bool)

  /** A stereo pair of port indices (std::pair<int, int>); -1 marks "no port". */
  datatype Pair = Pair(first: int, second: int)

  /** A labelled bus of a neighbor-connectable module. */
  datatype Bus = Bus(name: string, ports: Pair)

  /**
   * The state of one module as the helpers see it. `neighborConnectable`
   * says whether the module implements the neighbor-connection interface;
   * `primaryOutputs`/`primaryInputs` are what that interface reports.
   */
  datatype Module = Module(
    id: ModuleId,
    model: Model,
    inputs: seq<Port>,
    outputNames: seq<string>,
    neighborConnectable: bool,
    primaryOutputs: Option<seq<Bus>>,
    primaryInputs: Option<seq<Bus>>,
    leftExpander: Option<ModuleId>,
    rightExpander: Option<ModuleId>)

  /** A cable from `outputModule`'s output `outputId` into `inputModule`'s input `inputId`. */
  datatype Cable = Cable(inputModule: ModuleId, inputId: int, outputModule: ModuleId, outputId: int, color: Color)

  /** An undo-history record: one added cable, or a named group of records. */
  datatype Action = CableAdd(cable: Cable) | Complex(name: string, children: seq<Action>)

  /** The engine: the registry and the list of cables. */
  class Engine {
    var moduleIds: seq<ModuleId>
    var modules: map<ModuleId, Module>
    var cables: seq<Cable>

    constructor (ids: seq<ModuleId>, mods: map<ModuleId, Module>)
      ensures moduleIds == ids && modules == mods && cables == []
    {
      moduleIds, modules, cables := ids, mods, [];
    }

    method AddCable(c: Cable)
      modifies this`cables
      ensures cables == old(cables) + [c]
    {
      cables := cables + [c];
    }
  }

  /** The application's undo history. */
  class History {
    var actions: seq<Action>

    constructor ()
      ensures actions == []
    {
      actions := [];
    }

    method Push(a: Action)
      modifies this`actions
      ensures actions == old(actions) + [a]
    {
      actions := actions + [a];
    }
  }

  /** A history action that groups the records pushed into it under one name. */
  class ComplexAction {
    var name: string
    var actions: seq<Action>

    constructor (name: string)
      ensures this.name == name && actions == []
    {
      this.name, actions := name, [];
    }

    method Push(a: Action)
      modifies this`actions
      ensures actions == old(actions) + [a]
    {
      actions := actions + [a];
    }

    /** The record that pushing this action onto the history stores. */
    function Record(): Action
      reads this
    {
      Complex(name, actions)
    }
  }

  /**
   * A menu entry. An item carries what its click callback captured (`A`), a
   * submenu entry what its builder callback captured (`S`).
   */
  datatype Entry<A, S> = Label(text: string) | Item(text: string, onClick: A) | Separator | Submenu(text: string, onOpen: S)

  /** A context menu: the entries added to it, in order. */
  class Menu<A, S> {
    var entries: seq<Entry<A, S>>

    constructor ()
      ensures entries == []
    {
      entries := [];
    }

    method AddChild(e: Entry<A, S>)
      modifies this`entries
      ensures entries == old(entries) + [e]
    {
      entries := entries + [e];
    }
  }
}
