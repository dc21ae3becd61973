/**
 * Discovery of MindMeld MixMaster / AuxSpander peer modules, their stereo
 * port pairing, the context-menu entries that offer to cable a port to a
 * peer or to a neighbor module, and the cables and history records that
 * activating such an entry creates.
 */
module ModuleConnector {
  import opened Wrappers
  import opened Host

  /* ------------------------------------------------------------------ */
  /* Peer discovery                                                      */
  /* ------------------------------------------------------------------ */

  const MindMeld: string := "MindMeld"

  datatype PeerKind = MixMasterKind | AuxSpanderKind

  /** A MindMeld module of the given kind (full or Jr). */
  predicate IsPeer(kind: PeerKind, m: Module)
  {
    && m.model.pluginName == MindMeld
    && match kind
       case MixMasterKind => m.model.name == "MixMaster" || m.model.name == "MixMasterJr"
       case AuxSpanderKind => m.model.name == "AuxSpander" || m.model.name == "AuxSpanderJr"
  }

  /** The modules of the given kind among `ids`, in registry order; an id with no module contributes nothing. */
  function PeersIn(ids: seq<ModuleId>, modules: map<ModuleId, Module>, kind: PeerKind): seq<Module>
  {
    if ids == [] then []
    else
      var last := ids[|ids| - 1];
      PeersIn(ids[..|ids| - 1], modules, kind)
        + (if last in modules && IsPeer(kind, modules[last]) then [modules[last]] else [])
  }

  /** `m` is the (non-null) module found for one of `ids`. */
  predicate Registered(ids: seq<ModuleId>, modules: map<ModuleId, Module>, m: Module)
  {
    exists i :: 0 <= i < |ids| && ids[i] in modules && modules[ids[i]] == m
  }

  /** The discovered peers are exactly the registered modules of the kind: nothing else is included. */
  lemma {:induction false} PeersInExactly(ids: seq<ModuleId>, modules: map<ModuleId, Module>, kind: PeerKind, m: Module)
    ensures m in PeersIn(ids, modules, kind) <==> IsPeer(kind, m) && Registered(ids, modules, m)
  {
    if ids != [] {
      var init, last := ids[..|ids| - 1], ids[|ids| - 1];
      PeersInExactly(init, modules, kind, m);
      if Registered(ids, modules, m) {
        var i :| 0 <= i < |ids| && ids[i] in modules && modules[ids[i]] == m;
        if i < |init| {
          assert init[i] == ids[i];
        }
      }
      if Registered(init, modules, m) {
        var i :| 0 <= i < |init| && init[i] in modules && modules[init[i]] == m;
        assert ids[i] == init[i];
      }
    }
  }

  /** Discovery keeps registry order: scanning two runs of ids is scanning each in turn. */
  lemma {:induction false} PeersInAppend(a: seq<ModuleId>, b: seq<ModuleId>, modules: map<ModuleId, Module>, kind: PeerKind)
    ensures PeersIn(a + b, modules, kind) == PeersIn(a, modules, kind) + PeersIn(b, modules, kind)
  {
    if b == [] {
      assert a + b == a;
    } else {
      var init := b[..|b| - 1];
      assert (a + b)[..|a + b| - 1] == a + init;
      assert (a + b)[|a + b| - 1] == b[|b| - 1];
      PeersInAppend(a, init, modules, kind);
    }
  }

  /** Scan the engine's module ids and keep the non-null modules of the given kind. */
  method FindPeers(engine: Engine, kind: PeerKind) returns (result: seq<Module>)
    ensures result == PeersIn(engine.moduleIds, engine.modules, kind)
  {
    var mids := engine.moduleIds;
    result := [];
    for i := 0 to |mids|
      invariant result == PeersIn(mids[..i], engine.modules, kind)
    {
      assert mids[..i + 1][..i] == mids[..i];
      if mids[i] in engine.modules {
        var mod := engine.modules[mids[i]];
        if IsPeer(kind, mod) {
          result := result + [mod];
        }
      }
    }
    assert mids[..|mids|] == mids;
  }

  /** findMixMasters */
  method FindMixMasters(engine: Engine) returns (result: seq<Module>)
    ensures result == PeersIn(engine.moduleIds, engine.modules, MixMasterKind)
    ensures forall m :: m in result ==> IsPeer(MixMasterKind, m)
  {
    result := FindPeers(engine, MixMasterKind);
    forall m | m in result ensures IsPeer(MixMasterKind, m) {
      PeersInExactly(engine.moduleIds, engine.modules, MixMasterKind, m);
    }
  }

  /** findAuxSpanders */
  method FindAuxSpanders(engine: Engine) returns (result: seq<Module>)
    ensures result == PeersIn(engine.moduleIds, engine.modules, AuxSpanderKind)
    ensures forall m :: m in result ==> IsPeer(AuxSpanderKind, m)
  {
    result := FindPeers(engine, AuxSpanderKind);
    forall m | m in result ensures IsPeer(AuxSpanderKind, m) {
      PeersInExactly(engine.moduleIds, engine.modules, AuxSpanderKind, m);
    }
  }

  /* ------------------------------------------------------------------ */
  /* Channel counts and port pairs                                       */
  /* ------------------------------------------------------------------ */

  /** mixMasterNumInputs: 16 stereo inputs on a MixMaster, 8 on a MixMasterJr, none otherwise. */
  function MixMasterNumInputs(m: Module): (n: nat)
    requires m.model.pluginName == MindMeld
    ensures m.model.name == "MixMaster" ==> n == 16
    ensures m.model.name == "MixMasterJr" ==> n == 8
    ensures n != 0 <==> IsPeer(MixMasterKind, m)
  {
    if m.model.name == "MixMaster" then 16
    else if m.model.name == "MixMasterJr" then 8
    else 0
  }

  /** auxSpanderNumInputs: 4 stereo returns on an AuxSpander or AuxSpanderJr, none otherwise. */
  function AuxSpanderNumInputs(m: Module): (n: nat)
    requires m.model.pluginName == MindMeld
    ensures n != 0 ==> n == 4
    ensures n != 0 <==> IsPeer(AuxSpanderKind, m)
  {
    if m.model.name == "AuxSpander" then 4
    else if m.model.name == "AuxSpanderJr" then 4
    else 0
  }

  /** Every discovered peer has channels, so its submenu is never empty. */
  lemma DiscoveredPeersHaveChannels(ids: seq<ModuleId>, modules: map<ModuleId, Module>, m: Module)
    ensures m in PeersIn(ids, modules, MixMasterKind) ==> m.model.pluginName == MindMeld && MixMasterNumInputs(m) > 0
    ensures m in PeersIn(ids, modules, AuxSpanderKind) ==> m.model.pluginName == MindMeld && AuxSpanderNumInputs(m) == 4
  {
    PeersInExactly(ids, modules, MixMasterKind, m);
    PeersInExactly(ids, modules, AuxSpanderKind, m);
  }

  /** The three banks of stereo ports the helpers pair channels with. */
  datatype Bank = MixMasterInputs | AuxSpanderReturns | AuxSpanderSends

  /** mixMasterInput: interleaved, the channel's left is the even port and its right the next, odd one. */
  function MixMasterInput(channel: int): (p: Pair)
    ensures p.first % 2 == 0 && p.second == p.first + 1
    ensures p.first / 2 == channel && p.second / 2 == channel
  {
    Pair(channel * 2, channel * 2 + 1)
  }

  /** auxSpanderReturn: interleaved like the MixMaster inputs. */
  function AuxSpanderReturn(channel: int): (p: Pair)
    ensures p.first % 2 == 0 && p.second == p.first + 1
    ensures p.first / 2 == channel && p.second / 2 == channel
  {
    Pair(channel * 2, channel * 2 + 1)
  }

  /** auxSpanderSend: the four lefts first, then the four rights. */
  function AuxSpanderSend(channel: int): (p: Pair)
    ensures p.second == p.first + 4
    ensures 0 <= channel < 4 ==> 0 <= p.first < 4 <= p.second < 8
    ensures p.first == channel
  {
    Pair(channel, channel + 4)
  }

  function ChannelPair(bank: Bank, channel: int): Pair
  {
    match bank
    case MixMasterInputs => MixMasterInput(channel)
    case AuxSpanderReturns => AuxSpanderReturn(channel)
    case AuxSpanderSends => AuxSpanderSend(channel)
  }

  /** The port indices of channels 0 .. n-1, left then right for each channel. */
  function BankPorts(bank: Bank, n: nat): seq<int>
  {
    if n == 0 then [] else BankPorts(bank, n - 1) + [ChannelPair(bank, n - 1).first, ChannelPair(bank, n - 1).second]
  }

  /** The n consecutive integers from lo. */
  function RangeFrom(lo: int, n: nat): (r: seq<int>)
    ensures |r| == n && forall i :: 0 <= i < n ==> r[i] == lo + i
  {
    if n == 0 then [] else RangeFrom(lo, n - 1) + [lo + n - 1]
  }

  /** The ports 0 .. k-1. */
  function Range(k: nat): (r: seq<int>)
    ensures |r| == k && forall i :: 0 <= i < k ==> r[i] == i
  {
    RangeFrom(0, k)
  }

  /** Two channels of one bank never share a port, and a pair's two ports are distinct. */
  lemma PairsDisjoint(bank: Bank, c: int, d: int)
    ensures ChannelPair(bank, c).first != ChannelPair(bank, c).second
    ensures c != d ==> ChannelPair(bank, c).first != ChannelPair(bank, d).first
    ensures c != d ==> ChannelPair(bank, c).second != ChannelPair(bank, d).second
    ensures c != d && bank != AuxSpanderSends ==> ChannelPair(bank, c).first != ChannelPair(bank, d).second
    ensures c != d && bank == AuxSpanderSends && 0 <= c < 4 && 0 <= d < 4 ==>
      ChannelPair(bank, c).first != ChannelPair(bank, d).second
  {
  }

  /** The interleaved pairs of channels 0 .. n-1 use exactly the ports 0 .. 2n-1, in order. */
  lemma {:induction false} InterleavedPortsAreRange(bank: Bank, n: nat)
    requires bank != AuxSpanderSends
    ensures BankPorts(bank, n) == Range(2 * n)
  {
    if n > 0 {
      InterleavedPortsAreRange(bank, n - 1);
      assert BankPorts(bank, n) == Range(2 * (n - 1)) + [2 * (n - 1), 2 * (n - 1) + 1];
    }
  }

  lemma SendPortsSnoc(n: nat)
    requires n > 0
    ensures BankPorts(AuxSpanderSends, n) == BankPorts(AuxSpanderSends, n - 1) + [n - 1, n + 3]
  {
  }

  /** Channel n-1's send pair (n-1, n+3) extends the lefts and the rights by one each. */
  lemma SendPortsStep(n: nat)
    requires n > 0
    requires multiset(BankPorts(AuxSpanderSends, n - 1)) == multiset(RangeFrom(0, n - 1)) + multiset(RangeFrom(4, n - 1))
    ensures multiset(BankPorts(AuxSpanderSends, n)) == multiset(RangeFrom(0, n)) + multiset(RangeFrom(4, n))
  {
    SendPortsSnoc(n);
  }

  /** The send pairs of channels 0 .. n-1 use the lefts 0 .. n-1 and the rights 4 .. n+3. */
  lemma {:induction false} SendPortsSplit(n: nat)
    ensures multiset(BankPorts(AuxSpanderSends, n)) == multiset(RangeFrom(0, n)) + multiset(RangeFrom(4, n))
  {
    if n > 0 {
      SendPortsSplit(n - 1);
      SendPortsStep(n);
    }
  }

  /** A range splits at any point into two consecutive ranges. */
  lemma {:induction false} RangeFromSplit(lo: int, n: nat, k: nat)
    ensures RangeFrom(lo, n + k) == RangeFrom(lo, n) + RangeFrom(lo + n, k)
  {
    if k > 0 {
      RangeFromSplit(lo, n, k - 1);
      assert RangeFrom(lo, n + k) == RangeFrom(lo, n + k - 1) + [lo + n + k - 1];
    }
  }

  /** The send pairs of the four AuxSpander channels cover the ports 0 .. 7, each exactly once. */
  lemma SendPortsPermuteRange()
    ensures multiset(BankPorts(AuxSpanderSends, 4)) == multiset(Range(8))
  {
    SendPortsSplit(4);
    RangeFromSplit(0, 4, 4);
  }

  /* ------------------------------------------------------------------ */
  /* Port labels                                                         */
  /* ------------------------------------------------------------------ */

  const LeftSuffix: string := " left"

  predicate OccursAt(s: string, pat: string, k: int)
  {
    0 <= k && k + |pat| <= |s| && s[k..k + |pat|] == pat
  }

  predicate Contains(s: string, pat: string)
  {
    exists k :: 0 <= k <= |s| && OccursAt(s, pat, k)
  }

  /** std::string::find from position `from`: the first occurrence at or after `from`. */
  function FindFrom(s: string, pat: string, from: nat): (r: Option<nat>)
    decreases |s| - from
    ensures r.Some? ==> from <= r.value && r.value + |pat| <= |s|
  {
    if from + |pat| > |s| then None
    else if s[from..from + |pat|] == pat then Some(from)
    else FindFrom(s, pat, from + 1)
  }

  /** A found position is an occurrence with none before it from `from` on; no result means no occurrence there. */
  lemma {:induction false} FindFromFindsFirst(s: string, pat: string, from: nat)
    decreases |s| - from
    ensures var r := FindFrom(s, pat, from);
      && (r.Some? ==> from <= r.value && OccursAt(s, pat, r.value))
      && (r.Some? ==> forall k :: from <= k < r.value ==> !OccursAt(s, pat, k))
      && (r.None? ==> forall k :: from <= k ==> !OccursAt(s, pat, k))
  {
    if from + |pat| <= |s| && s[from..from + |pat|] != pat {
      FindFromFindsFirst(s, pat, from + 1);
    }
  }

  /** The label of a port with its first " left" (and anything after it) cut off. */
  function TrimLeft(name: string): string
  {
    match FindFrom(name, LeftSuffix, 0)
    case Some(k) => name[..k]
    case None => name
  }

  /**
   * The trimmed label is a prefix of the name that never contains " left": a name without
   * " left" is unchanged, and otherwise the name's first " left" starts right after the label.
   */
  lemma TrimLeftCutsFirstLeft(name: string)
    ensures TrimLeft(name) <= name
    ensures !Contains(TrimLeft(name), LeftSuffix)
    ensures !Contains(name, LeftSuffix) ==> TrimLeft(name) == name
    ensures Contains(name, LeftSuffix) ==> OccursAt(name, LeftSuffix, |TrimLeft(name)|)
  {
    FindFromFindsFirst(name, LeftSuffix, 0);
    var r := TrimLeft(name);
    match FindFrom(name, LeftSuffix, 0)
    case Some(k) =>
      assert r == name[..k];
      forall j | OccursAt(r, LeftSuffix, j) ensures OccursAt(name, LeftSuffix, j) {
        assert name[j..j + |LeftSuffix|] == r[j..j + |LeftSuffix|];
      }
    case None =>
  }

  /* ------------------------------------------------------------------ */
  /* Menu entries                                                        */
  /* ------------------------------------------------------------------ */

  /** What an item's click callback captured. */
  datatype ItemAction =
      /** Cable `source`'s outputs portL/portR into `target`'s inputs cto. */
    | ConnectToInputs(name: string, target: ModuleId, cto: Pair, source: ModuleId, portL: int, portR: int, color: Color)
      /** Cable `target`'s outputs cto into `source`'s inputs portL/portR. */
    | ConnectFromOutputs(name: string, target: ModuleId, cto: Pair, source: ModuleId, portL: int, portR: int, color: Color)
      /** Cable `me`'s output bus meOut into `neighbor`'s input bus neIn. */
    | ConnectToNeighbor(name: string, neighbor: ModuleId, neIn: Pair, me: ModuleId, meOut: Pair, color: Color)

  /** What a submenu's builder callback captured: which bank of `target` to offer. */
  datatype SubmenuAction = SubmenuAction(bank: Bank, target: ModuleId, source: ModuleId, portL: int, portR: int)

  type ConnectorEntry = Entry<ItemAction, SubmenuAction>
  type ConnectorMenu = Menu<ItemAction, SubmenuAction>

  const InUse: string := " (In Use)"

  /** The prefix of a connector item's history action name. */
  const ConnectToPrefix: string := "connect to "

  /** Both ports of `cto` are inputs of `m`. */
  predicate InputPairFits(m: Module, cto: Pair)
  {
    0 <= cto.first < |m.inputs| && 0 <= cto.second < |m.inputs|
  }

  /** addOutputConnector's entry: an "(In Use)" label if either input of the pair is connected, else an item. */
  function OutputConnectorEntry(m: Module, cto: Pair, source: ModuleId, portL: int, portR: int, color: Color): ConnectorEntry
    requires InputPairFits(m, cto)
  {
    var nm := TrimLeft(m.inputs[cto.first].name);
    if m.inputs[cto.first].connected || m.inputs[cto.second].connected then Label(nm + InUse)
    else Item(nm, ConnectToInputs(ConnectToPrefix + nm, m.id, cto, source, portL, portR, color))
  }

  /**
   * The output connector is an "(In Use)" label exactly when an input of the pair is connected;
   * otherwise it is an item titled with the trimmed label that connects the pair from the source.
   */
  lemma OutputConnectorEntryShape(m: Module, cto: Pair, source: ModuleId, portL: int, portR: int, color: Color)
    requires InputPairFits(m, cto)
    ensures var r := OutputConnectorEntry(m, cto, source, portL, portR, color);
      && (r.Label? <==> m.inputs[cto.first].connected || m.inputs[cto.second].connected)
      && (r.Label? || r.Item?)
      && (r.Label? ==> r.text == TrimLeft(m.inputs[cto.first].name) + InUse)
      && (r.Item? ==> r.text == TrimLeft(m.inputs[cto.first].name))
      && (r.Item? ==> r.onClick == ConnectToInputs(ConnectToPrefix + r.text, m.id, cto, source, portL, portR, color))
  {
  }

  method AddOutputConnector(menu: ConnectorMenu, m: Module, cto: Pair, source: ModuleId, portL: int, portR: int, color: Color)
    requires InputPairFits(m, cto)
    modifies menu
    ensures menu.entries == old(menu.entries) + [OutputConnectorEntry(m, cto, source, portL, portR, color)]
  {
    var nm := TrimLeft(m.inputs[cto.first].name);
    if m.inputs[cto.first].connected || m.inputs[cto.second].connected {
      menu.AddChild(Label(nm + InUse));
    } else {
      menu.AddChild(Item(nm, ConnectToInputs(ConnectToPrefix + nm, m.id, cto, source, portL, portR, color)));
    }
  }

  /** addInputConnector: nothing when both ports are missing, else one item. */
  function InputConnectorEntries(m: Module, cto: Pair, source: ModuleId, portL: int, portR: int, color: Color): (r: seq<ConnectorEntry>)
    requires portL >= 0 || portR >= 0 ==> 0 <= cto.first < |m.outputNames|
    ensures r == [] <==> portL < 0 && portR < 0
    ensures |r| == if portL < 0 && portR < 0 then 0 else 1
    ensures r != [] ==> r[0] == Item(TrimLeft(m.outputNames[cto.first]),
      ConnectFromOutputs(ConnectToPrefix + TrimLeft(m.outputNames[cto.first]), m.id, cto, source, portL, portR, color))
  {
    if portL < 0 && portR < 0 then []
    else
      var nm := TrimLeft(m.outputNames[cto.first]);
      [Item(nm, ConnectFromOutputs(ConnectToPrefix + nm, m.id, cto, source, portL, portR, color))]
  }

  method AddInputConnector(menu: ConnectorMenu, m: Module, cto: Pair, source: ModuleId, portL: int, portR: int, color: Color)
    requires portL >= 0 || portR >= 0 ==> 0 <= cto.first < |m.outputNames|
    modifies menu
    ensures menu.entries == old(menu.entries) + InputConnectorEntries(m, cto, source, portL, portR, color)
  {
    if portL < 0 && portR < 0 {
      return;
    }
    var nm := TrimLeft(m.outputNames[cto.first]);
    menu.AddChild(Item(nm, ConnectFromOutputs(ConnectToPrefix + nm, m.id, cto, source, portL, portR, color)));
  }

  /** The pairs of channels 0 .. n-1 of `bank` are inputs of `m`. */
  predicate InputBankFits(m: Module, bank: Bank, n: nat)
  {
    n == 0 || (if bank == AuxSpanderSends then n + 3 else 2 * n - 1) < |m.inputs|
  }

  /** InputBankFits says exactly that both ports of every channel below n are inputs of `m`. */
  lemma InputBankFitsExactly(m: Module, bank: Bank, n: nat)
    ensures InputBankFits(m, bank, n) <==> forall c :: 0 <= c < n ==> InputPairFits(m, ChannelPair(bank, c))
  {
    if n > 0 && !InputBankFits(m, bank, n) {
      assert !InputPairFits(m, ChannelPair(bank, n - 1));
    }
  }

  /** The left ports of channels 0 .. n-1 of `bank` are outputs of `m` (needed only when an item is made). */
  predicate OutputBankFits(m: Module, bank: Bank, n: nat, portL: int, portR: int)
  {
    portL >= 0 || portR >= 0 ==> forall c :: 0 <= c < n ==> 0 <= ChannelPair(bank, c).first < |m.outputNames|
  }

  /** One output-connector entry per channel 0 .. n-1. */
  function OutputConnectorRun(m: Module, bank: Bank, n: nat, source: ModuleId, portL: int, portR: int, color: Color): (r: seq<ConnectorEntry>)
    requires InputBankFits(m, bank, n)
    ensures |r| == n
  {
    if n == 0 then []
    else OutputConnectorRun(m, bank, n - 1, source, portL, portR, color)
           + [OutputConnectorEntry(m, ChannelPair(bank, n - 1), source, portL, portR, color)]
  }

  /** Input-connector entries for channels 0 .. n-1. */
  function InputConnectorRun(m: Module, bank: Bank, n: nat, source: ModuleId, portL: int, portR: int, color: Color): (r: seq<ConnectorEntry>)
    requires OutputBankFits(m, bank, n, portL, portR)
    ensures |r| == if portL < 0 && portR < 0 then 0 else n
  {
    if n == 0 then []
    else InputConnectorRun(m, bank, n - 1, source, portL, portR, color)
           + InputConnectorEntries(m, ChannelPair(bank, n - 1), source, portL, portR, color)
  }

  /** Entry c of the output run is built from channel c's pair. */
  /** Channel c below a fitting bank's count has both ports among the inputs. */
  lemma ChannelPairFits(m: Module, bank: Bank, n: nat, c: nat)
    requires InputBankFits(m, bank, n)
    requires c < n
    ensures InputPairFits(m, ChannelPair(bank, c))
  {
  }

  lemma {:induction false} OutputConnectorRunAt(m: Module, bank: Bank, n: nat, c: nat, source: ModuleId, portL: int, portR: int, color: Color)
    requires InputBankFits(m, bank, n)
    requires c < n
    ensures InputPairFits(m, ChannelPair(bank, c))
    ensures OutputConnectorRun(m, bank, n, source, portL, portR, color)[c] == OutputConnectorEntry(m, ChannelPair(bank, c), source, portL, portR, color)
  {
    ChannelPairFits(m, bank, n, c);
    if c < n - 1 {
      OutputConnectorRunAt(m, bank, n - 1, c, source, portL, portR, color);
    }
  }

  lemma OutputConnectorRunShape(m: Module, bank: Bank, n: nat, source: ModuleId, portL: int, portR: int, color: Color)
    requires InputBankFits(m, bank, n)
    ensures |OutputConnectorRun(m, bank, n, source, portL, portR, color)| == n
    ensures forall c :: 0 <= c < n ==>
      OutputConnectorRun(m, bank, n, source, portL, portR, color)[c] == OutputConnectorEntry(m, ChannelPair(bank, c), source, portL, portR, color)
  {
    forall c | 0 <= c < n
      ensures OutputConnectorRun(m, bank, n, source, portL, portR, color)[c] == OutputConnectorEntry(m, ChannelPair(bank, c), source, portL, portR, color)
    {
      OutputConnectorRunAt(m, bank, n, c, source, portL, portR, color);
    }
  }

  /** When a port is present, entry c of the input run is channel c's item. */
  lemma {:induction false} InputConnectorRunAt(m: Module, bank: Bank, n: nat, c: nat, source: ModuleId, portL: int, portR: int, color: Color)
    requires OutputBankFits(m, bank, n, portL, portR)
    requires portL >= 0 || portR >= 0
    requires c < n
    ensures [InputConnectorRun(m, bank, n, source, portL, portR, color)[c]] == InputConnectorEntries(m, ChannelPair(bank, c), source, portL, portR, color)
  {
    if c < n - 1 {
      InputConnectorRunAt(m, bank, n - 1, c, source, portL, portR, color);
    }
  }

  lemma InputConnectorRunShape(m: Module, bank: Bank, n: nat, source: ModuleId, portL: int, portR: int, color: Color)
    requires OutputBankFits(m, bank, n, portL, portR)
    ensures portL < 0 && portR < 0 ==> InputConnectorRun(m, bank, n, source, portL, portR, color) == []
    ensures portL >= 0 || portR >= 0 ==>
      |InputConnectorRun(m, bank, n, source, portL, portR, color)| == n &&
      forall c :: 0 <= c < n ==>
        [InputConnectorRun(m, bank, n, source, portL, portR, color)[c]] == InputConnectorEntries(m, ChannelPair(bank, c), source, portL, portR, color)
  {
    if portL >= 0 || portR >= 0 {
      forall c | 0 <= c < n
        ensures [InputConnectorRun(m, bank, n, source, portL, portR, color)[c]] == InputConnectorEntries(m, ChannelPair(bank, c), source, portL, portR, color)
      {
        InputConnectorRunAt(m, bank, n, c, source, portL, portR, color);
      }
    }
  }

  /** One more channel fits, and it appends its entry to the run. */
  lemma OutputConnectorRunSnoc(m: Module, bank: Bank, i: nat, source: ModuleId, portL: int, portR: int, color: Color)
    requires InputBankFits(m, bank, i + 1)
    ensures InputBankFits(m, bank, i) && InputPairFits(m, ChannelPair(bank, i))
    ensures OutputConnectorRun(m, bank, i + 1, source, portL, portR, color)
      == OutputConnectorRun(m, bank, i, source, portL, portR, color) + [OutputConnectorEntry(m, ChannelPair(bank, i), source, portL, portR, color)]
  {
  }

  method AddOutputConnectors(menu: ConnectorMenu, m: Module, bank: Bank, n: nat, source: ModuleId, portL: int, portR: int, color: Color)
    requires InputBankFits(m, bank, n)
    modifies menu
    ensures menu.entries == old(menu.entries) + OutputConnectorRun(m, bank, n, source, portL, portR, color)
  {
    for i := 0 to n
      invariant menu.entries == old(menu.entries) + OutputConnectorRun(m, bank, i, source, portL, portR, color)
    {
      OutputConnectorRunSnoc(m, bank, i, source, portL, portR, color);
      ConcatAssociative3(old(menu.entries), OutputConnectorRun(m, bank, i, source, portL, portR, color),
        [OutputConnectorEntry(m, ChannelPair(bank, i), source, portL, portR, color)]);
      AddOutputConnector(menu, m, ChannelPair(bank, i), source, portL, portR, color);
    }
  }

  /** One more channel's ports are outputs, and it appends its entries to the run. */
  lemma InputConnectorRunSnoc(m: Module, bank: Bank, i: nat, source: ModuleId, portL: int, portR: int, color: Color)
    requires OutputBankFits(m, bank, i + 1, portL, portR)
    ensures OutputBankFits(m, bank, i, portL, portR)
    ensures portL >= 0 || portR >= 0 ==> 0 <= ChannelPair(bank, i).first < |m.outputNames|
    ensures InputConnectorRun(m, bank, i + 1, source, portL, portR, color)
      == InputConnectorRun(m, bank, i, source, portL, portR, color) + InputConnectorEntries(m, ChannelPair(bank, i), source, portL, portR, color)
  {
  }

  method AddInputConnectors(menu: ConnectorMenu, m: Module, bank: Bank, n: nat, source: ModuleId, portL: int, portR: int, color: Color)
    requires OutputBankFits(m, bank, n, portL, portR)
    modifies menu
    ensures menu.entries == old(menu.entries) + InputConnectorRun(m, bank, n, source, portL, portR, color)
  {
    for i := 0 to n
      invariant menu.entries == old(menu.entries) + InputConnectorRun(m, bank, i, source, portL, portR, color)
    {
      InputConnectorRunSnoc(m, bank, i, source, portL, portR, color);
      ConcatAssociative3(old(menu.entries), InputConnectorRun(m, bank, i, source, portL, portR, color),
        InputConnectorEntries(m, ChannelPair(bank, i), source, portL, portR, color));
      AddInputConnector(menu, m, ChannelPair(bank, i), source, portL, portR, color);
    }
  }

  /* ------------------------------------------------------------------ */
  /* Peer submenus                                                       */
  /* ------------------------------------------------------------------ */

  /** The number of stereo channels of `m` in `bank`. */
  function NumChannels(bank: Bank, m: Module): nat
    requires m.model.pluginName == MindMeld
  {
    if bank == MixMasterInputs then MixMasterNumInputs(m) else AuxSpanderNumInputs(m)
  }

  /** The heading of a peer submenu (the AuxSpander send submenu repeats the return heading). */
  function Heading(bank: Bank): string
  {
    match bank
    case MixMasterInputs => "Connect to MixMaster Input"
    case AuxSpanderReturns => "Connect to AuxSpander Return"
    case AuxSpanderSends => "Connect to AuxSpander Return"
  }

  /** `m` has the ports that the submenu for `bank` indexes. */
  predicate SubmenuFits(bank: Bank, m: Module, portL: int, portR: int)
    requires m.model.pluginName == MindMeld
  {
    if bank == AuxSpanderSends then OutputBankFits(m, bank, NumChannels(bank, m), portL, portR)
    else InputBankFits(m, bank, NumChannels(bank, m))
  }

  /**
   * The entries of a peer submenu: outputsToMixMasterSubMenu, outputsToAuxSpanderSubMenu
   * and inputsFromAuxSpanderSubMenu for the three banks.
   */
  function SubmenuEntries(bank: Bank, m: Module, source: ModuleId, portL: int, portR: int, color: Color): (r: seq<ConnectorEntry>)
    requires m.model.pluginName == MindMeld
    requires SubmenuFits(bank, m, portL, portR)
    ensures r == [] <==> NumChannels(bank, m) == 0
    ensures r != [] ==> |r| >= 2 && r[0] == Label(Heading(bank)) && r[1] == Separator
  {
    var numIn := NumChannels(bank, m);
    if numIn == 0 then []
    else if bank == AuxSpanderSends then
      [Label(Heading(bank)), Separator] + InputConnectorRun(m, bank, numIn, source, portL, portR, color)
    else
      [Label(Heading(bank)), Separator] + OutputConnectorRun(m, bank, numIn, source, portL, portR, color)
  }

  /**
   * An output submenu is empty for a module with no channels; otherwise it is a heading,
   * a separator and one entry per channel in order, an "(In Use)" label exactly when
   * an input of the channel's pair is connected.
   */
  lemma OutputSubmenuShape(bank: Bank, m: Module, source: ModuleId, portL: int, portR: int, color: Color)
    requires bank != AuxSpanderSends
    requires m.model.pluginName == MindMeld
    requires SubmenuFits(bank, m, portL, portR)
    ensures NumChannels(bank, m) == 0 ==> SubmenuEntries(bank, m, source, portL, portR, color) == []
    ensures NumChannels(bank, m) > 0 ==>
      var r := SubmenuEntries(bank, m, source, portL, portR, color);
      && |r| == NumChannels(bank, m) + 2
      && r[..2] == [Label(Heading(bank)), Separator]
      && forall c :: 0 <= c < NumChannels(bank, m) ==>
           && (r[c + 2].Label? <==> m.inputs[2 * c].connected || m.inputs[2 * c + 1].connected)
           && (r[c + 2].Label? ==> r[c + 2].text == TrimLeft(m.inputs[2 * c].name) + InUse)
           && (!r[c + 2].Label? ==> r[c + 2] == Item(TrimLeft(m.inputs[2 * c].name),
                 ConnectToInputs(ConnectToPrefix + TrimLeft(m.inputs[2 * c].name), m.id, Pair(2 * c, 2 * c + 1), source, portL, portR, color)))
  {
    var n := NumChannels(bank, m);
    if n > 0 {
      var r := SubmenuEntries(bank, m, source, portL, portR, color);
      OutputSubmenuEntry(bank, m, source, portL, portR, color, 0);
      forall c | 0 <= c < n
        ensures && (r[c + 2].Label? <==> m.inputs[2 * c].connected || m.inputs[2 * c + 1].connected)
                && (r[c + 2].Label? ==> r[c + 2].text == TrimLeft(m.inputs[2 * c].name) + InUse)
                && (!r[c + 2].Label? ==> r[c + 2] == Item(TrimLeft(m.inputs[2 * c].name),
                      ConnectToInputs(ConnectToPrefix + TrimLeft(m.inputs[2 * c].name), m.id, Pair(2 * c, 2 * c + 1), source, portL, portR, color)))
      {
        OutputSubmenuEntry(bank, m, source, portL, portR, color, c);
        OutputConnectorEntryShape(m, Pair(2 * c, 2 * c + 1), source, portL, portR, color);
      }
    }
  }

  /** Entry c+2 of an output submenu is the connector entry of channel c's interleaved pair. */
  lemma OutputSubmenuEntry(bank: Bank, m: Module, source: ModuleId, portL: int, portR: int, color: Color, c: nat)
    requires bank != AuxSpanderSends
    requires m.model.pluginName == MindMeld
    requires SubmenuFits(bank, m, portL, portR)
    requires c < NumChannels(bank, m)
    ensures |SubmenuEntries(bank, m, source, portL, portR, color)| == NumChannels(bank, m) + 2
    ensures InputPairFits(m, Pair(2 * c, 2 * c + 1))
    ensures SubmenuEntries(bank, m, source, portL, portR, color)[c + 2]
      == OutputConnectorEntry(m, Pair(2 * c, 2 * c + 1), source, portL, portR, color)
  {
    var n := NumChannels(bank, m);
    OutputConnectorRunAt(m, bank, n, c, source, portL, portR, color);
    var run := OutputConnectorRun(m, bank, n, source, portL, portR, color);
    var r := SubmenuEntries(bank, m, source, portL, portR, color);
    assert r == [Label(Heading(bank)), Separator] + run;
    assert r[c + 2] == run[c];
    assert ChannelPair(bank, c) == Pair(2 * c, 2 * c + 1);
  }

  /**
   * Clicking channel c's item of an output submenu cables the peer's inputs 2c and 2c+1
   * from the source's left and right outputs, in that order.
   */
  lemma OutputItemCables(bank: Bank, m: Module, source: ModuleId, portL: int, portR: int, color: Color, c: nat)
    requires bank != AuxSpanderSends
    requires m.model.pluginName == MindMeld
    requires SubmenuFits(bank, m, portL, portR)
    requires c < NumChannels(bank, m)
    ensures |SubmenuEntries(bank, m, source, portL, portR, color)| == NumChannels(bank, m) + 2
    ensures var e := SubmenuEntries(bank, m, source, portL, portR, color)[c + 2];
      e.Item? ==> (PlannedCables(e.onClick) ==
                     (if portL >= 0 then [Cable(m.id, 2 * c, source, portL, color)] else [])
                       + (if portR >= 0 then [Cable(m.id, 2 * c + 1, source, portR, color)] else []))
  {
    OutputSubmenuEntry(bank, m, source, portL, portR, color, c);
  }

  /**
   * The AuxSpander send submenu is empty for a module with no channels; otherwise a heading,
   * a separator and, unless both ports are missing, one item per channel c for the sends (c, c+4).
   */
  lemma InputSubmenuShape(m: Module, source: ModuleId, portL: int, portR: int, color: Color)
    requires m.model.pluginName == MindMeld
    requires SubmenuFits(AuxSpanderSends, m, portL, portR)
    ensures AuxSpanderNumInputs(m) == 0 ==> SubmenuEntries(AuxSpanderSends, m, source, portL, portR, color) == []
    ensures AuxSpanderNumInputs(m) > 0 ==>
      var r := SubmenuEntries(AuxSpanderSends, m, source, portL, portR, color);
      && |r| == (if portL < 0 && portR < 0 then 2 else 6)
      && r[..2] == [Label(Heading(AuxSpanderSends)), Separator]
      && forall c :: 0 <= c < |r| - 2 ==>
           r[2..][c] == Item(TrimLeft(m.outputNames[c]),
             ConnectFromOutputs(ConnectToPrefix + TrimLeft(m.outputNames[c]), m.id, Pair(c, c + 4), source, portL, portR, color))
  {
    var n := AuxSpanderNumInputs(m);
    if n > 0 {
      var run := InputConnectorRun(m, AuxSpanderSends, n, source, portL, portR, color);
      InputConnectorRunShape(m, AuxSpanderSends, n, source, portL, portR, color);
      var r := SubmenuEntries(AuxSpanderSends, m, source, portL, portR, color);
      assert r == [Label(Heading(AuxSpanderSends)), Separator] + run;
      assert r[2..] == run;
      forall c | 0 <= c < |run|
        ensures run[c] == Item(TrimLeft(m.outputNames[c]),
                  ConnectFromOutputs(ConnectToPrefix + TrimLeft(m.outputNames[c]), m.id, Pair(c, c + 4), source, portL, portR, color))
      {
        assert [run[c]] == InputConnectorEntries(m, Pair(c, c + 4), source, portL, portR, color);
      }
    }
  }

  /**
   * Clicking channel c's item of the AuxSpander send submenu cables the source's inputs portL and
   * portR, each when present, from the peer's sends c and c+4, in that order.
   */
  lemma InputItemCables(m: Module, source: ModuleId, portL: int, portR: int, color: Color, c: nat)
    requires m.model.pluginName == MindMeld
    requires SubmenuFits(AuxSpanderSends, m, portL, portR)
    requires c < AuxSpanderNumInputs(m)
    requires portL >= 0 || portR >= 0
    ensures |SubmenuEntries(AuxSpanderSends, m, source, portL, portR, color)| == AuxSpanderNumInputs(m) + 2
    ensures var e := SubmenuEntries(AuxSpanderSends, m, source, portL, portR, color)[c + 2];
      && e.Item?
      && PlannedCables(e.onClick) ==
           (if portL >= 0 then [Cable(source, portL, m.id, c, color)] else [])
             + (if portR >= 0 then [Cable(source, portR, m.id, c + 4, color)] else [])
  {
    var n := AuxSpanderNumInputs(m);
    InputConnectorRunAt(m, AuxSpanderSends, n, c, source, portL, portR, color);
    var r := SubmenuEntries(AuxSpanderSends, m, source, portL, portR, color);
    var run := InputConnectorRun(m, AuxSpanderSends, n, source, portL, portR, color);
    assert r == [Label(Heading(AuxSpanderSends)), Separator] + run;
    assert r[c + 2] == run[c];
    assert [run[c]] == InputConnectorEntries(m, Pair(c, c + 4), source, portL, portR, color);
  }

  /** outputsToMixMasterSubMenu */
  method OutputsToMixMasterSubMenu(menu: ConnectorMenu, m: Module, source: ModuleId, portL: int, portR: int, color: Color)
    requires m.model.pluginName == MindMeld
    requires SubmenuFits(MixMasterInputs, m, portL, portR)
    modifies menu
    ensures menu.entries == old(menu.entries) + SubmenuEntries(MixMasterInputs, m, source, portL, portR, color)
  {
    var numIn := MixMasterNumInputs(m);
    if numIn == 0 {
      return;
    }
    menu.AddChild(Label("Connect to MixMaster Input"));
    menu.AddChild(Separator);
    ghost var top := menu.entries;
    assert top == old(menu.entries) + [Label(Heading(MixMasterInputs)), Separator];
    AddOutputConnectors(menu, m, MixMasterInputs, numIn, source, portL, portR, color);
    assert SubmenuEntries(MixMasterInputs, m, source, portL, portR, color)
        == [Label(Heading(MixMasterInputs)), Separator] + OutputConnectorRun(m, MixMasterInputs, numIn, source, portL, portR, color);
    ConcatAssociative3(old(menu.entries), [Label(Heading(MixMasterInputs)), Separator], OutputConnectorRun(m, MixMasterInputs, numIn, source, portL, portR, color));
  }

  /** outputsToAuxSpanderSubMenu */
  method OutputsToAuxSpanderSubMenu(menu: ConnectorMenu, m: Module, source: ModuleId, portL: int, portR: int, color: Color)
    requires m.model.pluginName == MindMeld
    requires SubmenuFits(AuxSpanderReturns, m, portL, portR)
    modifies menu
    ensures menu.entries == old(menu.entries) + SubmenuEntries(AuxSpanderReturns, m, source, portL, portR, color)
  {
    var numIn := AuxSpanderNumInputs(m);
    if numIn == 0 {
      return;
    }
    menu.AddChild(Label("Connect to AuxSpander Return"));
    menu.AddChild(Separator);
    ghost var top := menu.entries;
    assert top == old(menu.entries) + [Label(Heading(AuxSpanderReturns)), Separator];
    AddOutputConnectors(menu, m, AuxSpanderReturns, numIn, source, portL, portR, color);
    assert SubmenuEntries(AuxSpanderReturns, m, source, portL, portR, color)
        == [Label(Heading(AuxSpanderReturns)), Separator] + OutputConnectorRun(m, AuxSpanderReturns, numIn, source, portL, portR, color);
    ConcatAssociative3(old(menu.entries), [Label(Heading(AuxSpanderReturns)), Separator], OutputConnectorRun(m, AuxSpanderReturns, numIn, source, portL, portR, color));
  }

  /** inputsFromAuxSpanderSubMenu */
  method InputsFromAuxSpanderSubMenu(menu: ConnectorMenu, m: Module, source: ModuleId, portL: int, portR: int, color: Color)
    requires m.model.pluginName == MindMeld
    requires SubmenuFits(AuxSpanderSends, m, portL, portR)
    modifies menu
    ensures menu.entries == old(menu.entries) + SubmenuEntries(AuxSpanderSends, m, source, portL, portR, color)
  {
    var numIn := AuxSpanderNumInputs(m);
    if numIn == 0 {
      return;
    }
    menu.AddChild(Label("Connect to AuxSpander Return"));
    menu.AddChild(Separator);
    ghost var top := menu.entries;
    assert top == old(menu.entries) + [Label(Heading(AuxSpanderSends)), Separator];
    AddInputConnectors(menu, m, AuxSpanderSends, numIn, source, portL, portR, color);
    assert SubmenuEntries(AuxSpanderSends, m, source, portL, portR, color)
        == [Label(Heading(AuxSpanderSends)), Separator] + InputConnectorRun(m, AuxSpanderSends, numIn, source, portL, portR, color);
    ConcatAssociative3(old(menu.entries), [Label(Heading(AuxSpanderSends)), Separator], InputConnectorRun(m, AuxSpanderSends, numIn, source, portL, portR, color));
  }

  /** The submenu builder callback: build the submenu the entry was made for, for the module `m` it names. */
  method OpenSubmenu(menu: ConnectorMenu, sub: SubmenuAction, m: Module, color: Color)
    requires m.id == sub.target && m.model.pluginName == MindMeld
    requires SubmenuFits(sub.bank, m, sub.portL, sub.portR)
    modifies menu
    ensures menu.entries == old(menu.entries) + SubmenuEntries(sub.bank, m, sub.source, sub.portL, sub.portR, color)
  {
    match sub.bank
    case MixMasterInputs => OutputsToMixMasterSubMenu(menu, m, sub.source, sub.portL, sub.portR, color);
    case AuxSpanderReturns => OutputsToAuxSpanderSubMenu(menu, m, sub.source, sub.portL, sub.portR, color);
    case AuxSpanderSends => InputsFromAuxSpanderSubMenu(menu, m, sub.source, sub.portL, sub.portR, color);
  }

  /** One submenu entry per peer, in the order given, each titled with the peer's model name. */
  function PeerSubmenus(peers: seq<Module>, bank: Bank, source: ModuleId, lr: Pair): seq<ConnectorEntry>
  {
    if peers == [] then []
    else
      var m := peers[|peers| - 1];
      PeerSubmenus(peers[..|peers| - 1], bank, source, lr) + [Submenu(m.model.name, SubmenuAction(bank, m.id, source, lr.first, lr.second))]
  }

  lemma {:induction false} PeerSubmenusShape(peers: seq<Module>, bank: Bank, source: ModuleId, lr: Pair)
    ensures |PeerSubmenus(peers, bank, source, lr)| == |peers|
    ensures forall i :: 0 <= i < |peers| ==>
      PeerSubmenus(peers, bank, source, lr)[i] == Submenu(peers[i].model.name, SubmenuAction(bank, peers[i].id, source, lr.first, lr.second))
  {
    if peers != [] {
      var init := peers[..|peers| - 1];
      PeerSubmenusShape(init, bank, source, lr);
      forall i | 0 <= i < |init| ensures init[i] == peers[i] { }
    }
  }

  method AddPeerSubmenus(menu: ConnectorMenu, peers: seq<Module>, bank: Bank, source: ModuleId, lr: Pair)
    modifies menu
    ensures menu.entries == old(menu.entries) + PeerSubmenus(peers, bank, source, lr)
  {
    for i := 0 to |peers|
      invariant menu.entries == old(menu.entries) + PeerSubmenus(peers[..i], bank, source, lr)
    {
      assert peers[..i + 1][..i] == peers[..i];
      var m := peers[i];
      menu.AddChild(Submenu(m.model.name, SubmenuAction(bank, m.id, source, lr.first, lr.second)));
    }
    assert peers[..|peers|] == peers;
  }

  /* ------------------------------------------------------------------ */
  /* Neighbor connection                                                 */
  /* ------------------------------------------------------------------ */

  /** The module on the given side of `me`; an expander id with no module is null. */
  function ExpanderOf(me: Module, useLeft: bool, modules: map<ModuleId, Module>): (r: Option<Module>)
  {
    var id := if useLeft then me.leftExpander else me.rightExpander;
    if id.Some? && id.value in modules then Some(modules[id.value]) else None
  }

  /** The ports of a neighbor input bus that are looked up are inputs of `nb`. */
  predicate BusFits(nb: Module, b: Bus)
  {
    0 <= b.ports.first < |nb.inputs| && b.ports.second < |nb.inputs|
  }

  predicate BusesFit(nb: Module, ins: seq<Bus>)
  {
    forall j :: 0 <= j < |ins| ==> BusFits(nb, ins[j])
  }

  /** The input buses fit whenever the menu reads them: some output bus carries `portId`. */
  predicate InsFitWhenRead(nb: Module, outs: seq<Bus>, ins: seq<Bus>, portId: int)
  {
    CarryingCount(outs, portId) > 0 ==> BusesFit(nb, ins)
  }

  /** The neighbor's input buses fit its inputs when the gate is open and the menu reads them. */
  predicate NeighborFits(me: Module, nb: Option<Module>, portId: int)
  {
    NeighborGate(me, nb) ==> InsFitWhenRead(nb.value, me.primaryOutputs.value, nb.value.primaryInputs.value, portId)
  }

  /** A bus is in use when its first input, or its second if present, is connected. */
  predicate BusInUse(nb: Module, b: Bus)
    requires BusFits(nb, b)
  {
    nb.inputs[b.ports.first].connected || (b.ports.second >= 0 && nb.inputs[b.ports.second].connected)
  }

  /** An output bus carries the port when either of its ports is it. */
  predicate Carries(b: Bus, portId: int)
  {
    portId == b.ports.first || portId == b.ports.second
  }

  /** Both modules are neighbor-connectable and report non-empty output and input buses. */
  predicate NeighborGate(me: Module, nb: Option<Module>)
  {
    && me.neighborConnectable
    && nb.Some?
    && nb.value.neighborConnectable
    && me.primaryOutputs.Some? && nb.value.primaryInputs.Some?
    && |nb.value.primaryInputs.value| > 0 && |me.primaryOutputs.value| > 0
  }

  /** The title of the entry for output bus `out` and the neighbor's input bus `b`. */
  function NeighborTitle(out: Bus, nb: Module, b: Bus): string
  {
    "Connect " + out.name + " to " + nb.model.name + " " + b.name
  }

  /** The entry offering to cable output bus `out` of `me` to input bus `b` of the neighbor. */
  function NeighborEntry(me: Module, nb: Module, out: Bus, b: Bus, color: Color): (r: ConnectorEntry)
    requires BusFits(nb, b)
    ensures r.Label? <==> BusInUse(nb, b)
    ensures r.Label? || r.Item?
    ensures r.Label? ==> r.text == NeighborTitle(out, nb, b) + InUse
    ensures r.Item? ==> r.text == NeighborTitle(out, nb, b)
    ensures r.Item? ==> r.onClick == ConnectToNeighbor(r.text, nb.id, b.ports, me.id, out.ports, color)
  {
    var nm := NeighborTitle(out, nb, b);
    if BusInUse(nb, b) then Label(nm + InUse)
    else Item(nm, ConnectToNeighbor(nm, nb.id, b.ports, me.id, out.ports, color))
  }

  /** One entry per neighbor input bus, for output bus `out`. */
  function InBusEntries(me: Module, nb: Module, out: Bus, ins: seq<Bus>, color: Color): seq<ConnectorEntry>
    requires BusesFit(nb, ins)
  {
    if ins == [] then []
    else InBusEntries(me, nb, out, ins[..|ins| - 1], color) + [NeighborEntry(me, nb, out, ins[|ins| - 1], color)]
  }

  /** For each output bus a separator, followed by the input-bus entries when the bus carries `portId`. */
  function OutBusEntries(me: Module, nb: Module, outs: seq<Bus>, ins: seq<Bus>, portId: int, color: Color): seq<ConnectorEntry>
    requires InsFitWhenRead(nb, outs, ins, portId)
  {
    if outs == [] then []
    else
      var out := outs[|outs| - 1];
      OutBusEntries(me, nb, outs[..|outs| - 1], ins, portId, color)
        + [Separator]
        + (if Carries(out, portId) then InBusEntries(me, nb, out, ins, color) else [])
  }

  /** connectOutputToNeighorInput's entries. */
  function NeighborEntries(me: Module, nb: Option<Module>, portId: int, color: Color): seq<ConnectorEntry>
    requires NeighborFits(me, nb, portId)
  {
    if NeighborGate(me, nb) then OutBusEntries(me, nb.value, me.primaryOutputs.value, nb.value.primaryInputs.value, portId, color)
    else []
  }

  /** The number of output buses that carry `portId`. */
  function CarryingCount(outs: seq<Bus>, portId: int): nat
  {
    if outs == [] then 0
    else CarryingCount(outs[..|outs| - 1], portId) + (if Carries(outs[|outs| - 1], portId) then 1 else 0)
  }

  /** Counting over longer prefixes never decreases, and a carrying bus makes the whole count positive. */
  lemma {:induction false} CarryingCountPrefix(outs: seq<Bus>, k: nat, portId: int)
    requires k < |outs|
    ensures CarryingCount(outs[..k], portId) <= CarryingCount(outs[..k + 1], portId) <= CarryingCount(outs, portId)
    ensures Carries(outs[k], portId) ==> CarryingCount(outs, portId) > 0
    decreases |outs| - k
  {
    assert outs[..k + 1][..k] == outs[..k];
    if k + 1 < |outs| {
      CarryingCountPrefix(outs, k + 1, portId);
    } else {
      assert outs[..k + 1] == outs;
    }
  }

  lemma {:induction false} InBusEntriesShape(me: Module, nb: Module, out: Bus, ins: seq<Bus>, color: Color)
    requires BusesFit(nb, ins)
    ensures |InBusEntries(me, nb, out, ins, color)| == |ins|
    ensures forall j :: 0 <= j < |ins| ==> InBusEntries(me, nb, out, ins, color)[j] == NeighborEntry(me, nb, out, ins[j], color)
    ensures Separator !in InBusEntries(me, nb, out, ins, color)
  {
    if ins != [] {
      var init := ins[..|ins| - 1];
      InBusEntriesShape(me, nb, out, init, color);
      forall j | 0 <= j < |init| ensures init[j] == ins[j] { }
    }
  }

  /** The neighbor entries hold one separator per output bus. */
  lemma {:induction false} OutBusSeparators(me: Module, nb: Module, outs: seq<Bus>, ins: seq<Bus>, portId: int, color: Color)
    requires InsFitWhenRead(nb, outs, ins, portId)
    ensures multiset(OutBusEntries(me, nb, outs, ins, portId, color))[Separator] == |outs|
  {
    if outs != [] {
      var init, out := outs[..|outs| - 1], outs[|outs| - 1];
      OutBusSeparators(me, nb, init, ins, portId, color);
      if Carries(out, portId) {
        InBusEntriesShape(me, nb, out, ins, color);
      }
      var tail := if Carries(out, portId) then InBusEntries(me, nb, out, ins, color) else [];
      assert multiset(tail)[Separator] == 0;
      assert OutBusEntries(me, nb, outs, ins, portId, color) == OutBusEntries(me, nb, init, ins, portId, color) + [Separator] + tail;
    }
  }

  /** After each output bus that carries `portId` comes one entry per neighbor input bus, after the others none. */
  lemma {:induction false} OutBusLength(me: Module, nb: Module, outs: seq<Bus>, ins: seq<Bus>, portId: int, color: Color)
    requires InsFitWhenRead(nb, outs, ins, portId)
    ensures |OutBusEntries(me, nb, outs, ins, portId, color)| == |outs| + |ins| * CarryingCount(outs, portId)
  {
    if outs != [] {
      var init, out := outs[..|outs| - 1], outs[|outs| - 1];
      OutBusLength(me, nb, init, ins, portId, color);
      if Carries(out, portId) {
        InBusEntriesShape(me, nb, out, ins, color);
      }
      var tail := if Carries(out, portId) then InBusEntries(me, nb, out, ins, color) else [];
      var bit := if Carries(out, portId) then 1 else 0;
      assert OutBusEntries(me, nb, outs, ins, portId, color) == OutBusEntries(me, nb, init, ins, portId, color) + [Separator] + tail;
      assert |tail| == |ins| * bit;
      assert CarryingCount(outs, portId) == CarryingCount(init, portId) + bit;
      MulDistributes(|ins|, CarryingCount(init, portId), bit);
    }
  }

  lemma MulDistributes(a: nat, k: nat, b: nat)
    ensures a * (k + b) == a * k + a * b
  {
  }


  /**
   * The neighbor menu is non-empty exactly when both modules are neighbor-connectable and
   * report non-empty buses; then it holds one separator per output bus.
   */
  lemma NeighborMenuGated(me: Module, nb: Option<Module>, portId: int, color: Color)
    requires NeighborFits(me, nb, portId)
    ensures NeighborEntries(me, nb, portId, color) != [] <==> NeighborGate(me, nb)
    ensures NeighborGate(me, nb) ==>
      multiset(NeighborEntries(me, nb, portId, color))[Separator] == |me.primaryOutputs.value|
  {
    if NeighborGate(me, nb) {
      OutBusSeparators(me, nb.value, me.primaryOutputs.value, nb.value.primaryInputs.value, portId, color);
    }
  }

  /** connectOutputToNeighorInput */
  method ConnectOutputToNeighborInput(menu: ConnectorMenu, engine: Engine, me: Module, useLeft: bool, portId: int, color: Color)
    requires NeighborFits(me, ExpanderOf(me, useLeft, engine.modules), portId)
    modifies menu
    ensures menu.entries == old(menu.entries) + NeighborEntries(me, ExpanderOf(me, useLeft, engine.modules), portId, color)
  {
    var neighbor := ExpanderOf(me, useLeft, engine.modules);
    if !me.neighborConnectable {
      return;
    }
    if neighbor.None? {
      return;
    }
    var nb := neighbor.value;
    if !nb.neighborConnectable {
      return;
    }
    var meOutVec, neInVec := me.primaryOutputs, nb.primaryInputs;
    if meOutVec.None? || neInVec.None? {
      return;
    }
    if |neInVec.value| == 0 || |meOutVec.value| == 0 {
      return;
    }
    AddOutBusEntries(menu, me, nb, meOutVec.value, neInVec.value, portId, color);
  }

  /** One more output bus adds its separator and, when it carries the port, its input-bus entries. */
  lemma OutBusEntriesSnoc(me: Module, nb: Module, outs: seq<Bus>, ins: seq<Bus>, portId: int, color: Color, k: nat)
    requires InsFitWhenRead(nb, outs, ins, portId)
    requires k < |outs|
    ensures InsFitWhenRead(nb, outs[..k], ins, portId) && InsFitWhenRead(nb, outs[..k + 1], ins, portId)
    ensures Carries(outs[k], portId) ==> BusesFit(nb, ins)
    ensures OutBusEntries(me, nb, outs[..k + 1], ins, portId, color)
      == OutBusEntries(me, nb, outs[..k], ins, portId, color) + [Separator]
         + (if Carries(outs[k], portId) then InBusEntries(me, nb, outs[k], ins, color) else [])
  {
    CarryingCountPrefix(outs, k, portId);
    assert outs[..k + 1][..k] == outs[..k];
  }

  /** The outer loop of connectOutputToNeighorInput: a separator per output bus, then its entries if it carries the port. */
  method AddOutBusEntries(menu: ConnectorMenu, me: Module, nb: Module, outs: seq<Bus>, ins: seq<Bus>, portId: int, color: Color)
    requires InsFitWhenRead(nb, outs, ins, portId)
    modifies menu
    ensures menu.entries == old(menu.entries) + OutBusEntries(me, nb, outs, ins, portId, color)
  {
    for k := 0 to |outs|
      invariant InsFitWhenRead(nb, outs[..k], ins, portId)
      invariant menu.entries == old(menu.entries) + OutBusEntries(me, nb, outs[..k], ins, portId, color)
    {
      var out := outs[k];
      OutBusEntriesSnoc(me, nb, outs, ins, portId, color, k);
      menu.AddChild(Separator);
      if !Carries(out, portId) {
        continue;
      }
      AddInBusEntries(menu, me, nb, out, ins, color);
    }
    assert outs[..|outs|] == outs;
  }

  /** The inner loop of connectOutputToNeighorInput: one entry per neighbor input bus for output bus `out`. */
  method AddInBusEntries(menu: ConnectorMenu, me: Module, nb: Module, out: Bus, ins: seq<Bus>, color: Color)
    requires BusesFit(nb, ins)
    modifies menu
    ensures menu.entries == old(menu.entries) + InBusEntries(me, nb, out, ins, color)
  {
    for j := 0 to |ins|
      invariant menu.entries == old(menu.entries) + InBusEntries(me, nb, out, ins[..j], color)
    {
      assert ins[..j + 1][..j] == ins[..j];
      var b := ins[j];
      var nm := NeighborTitle(out, nb, b);
      if nb.inputs[b.ports.first].connected || (b.ports.second >= 0 && nb.inputs[b.ports.second].connected) {
        menu.AddChild(Label(nm + InUse));
      } else {
        menu.AddChild(Item(nm, ConnectToNeighbor(nm, nb.id, b.ports, me.id, out.ports, color)));
      }
    }
    assert ins[..|ins|] == ins;
  }

  /* ------------------------------------------------------------------ */
  /* Activation: cables and history                                      */
  /* ------------------------------------------------------------------ */

  /** The cables an item's callback adds, in the order it adds them. */
  function PlannedCables(a: ItemAction): (r: seq<Cable>)
    ensures |r| <= 2
    ensures forall c :: c in r ==> c.color == a.color
  {
    match a
    case ConnectToInputs(_, m, cto, source, portL, portR, col) =>
      (if portL >= 0 then [Cable(m, cto.first, source, portL, col)] else [])
        + (if portR >= 0 then [Cable(m, cto.second, source, portR, col)] else [])
    case ConnectFromOutputs(_, m, cto, source, portL, portR, col) =>
      (if portL >= 0 then [Cable(source, portL, m, cto.first, col)] else [])
        + (if portR >= 0 then [Cable(source, portR, m, cto.second, col)] else [])
    case ConnectToNeighbor(_, nb, neIn, me, meOut, col) =>
      (if neIn.first >= 0 && meOut.first >= 0 then [Cable(nb, neIn.first, me, meOut.first, col)] else [])
        + (if neIn.second >= 0 && meOut.second >= 0 then [Cable(nb, neIn.second, me, meOut.second, col)] else [])
  }

  function CableAdds(cs: seq<Cable>): (r: seq<Action>)
    ensures |r| == |cs| && forall i :: 0 <= i < |cs| ==> r[i] == CableAdd(cs[i])
  {
    seq(|cs|, i requires 0 <= i < |cs| => CableAdd(cs[i]))
  }

  /** The history record an item's callback pushes: all its cable records under the action's name. */
  function ActivationRecord(a: ItemAction): Action
  {
    Complex(a.name, CableAdds(PlannedCables(a)))
  }

  /**
   * A connector item adds one cable per port that is present, left before right: for an output
   * connector into the target's inputs from the source's outputs, for an input connector the reverse.
   */
  lemma ConnectorCables(a: ItemAction)
    requires !a.ConnectToNeighbor?
    ensures |PlannedCables(a)| == (if a.portL >= 0 then 1 else 0) + (if a.portR >= 0 then 1 else 0)
    ensures a.ConnectToInputs? ==> forall c :: c in PlannedCables(a) ==>
      c.inputModule == a.target && c.outputModule == a.source && c.color == a.color
    ensures a.ConnectFromOutputs? ==> forall c :: c in PlannedCables(a) ==>
      c.inputModule == a.source && c.outputModule == a.target && c.color == a.color
    ensures a.ConnectToInputs? && a.portL >= 0 ==>
      PlannedCables(a)[0] == Cable(a.target, a.cto.first, a.source, a.portL, a.color)
    ensures a.ConnectToInputs? && a.portR >= 0 ==>
      PlannedCables(a)[|PlannedCables(a)| - 1] == Cable(a.target, a.cto.second, a.source, a.portR, a.color)
    ensures a.ConnectFromOutputs? && a.portL >= 0 ==>
      PlannedCables(a)[0] == Cable(a.source, a.portL, a.target, a.cto.first, a.color)
    ensures a.ConnectFromOutputs? && a.portR >= 0 ==>
      PlannedCables(a)[|PlannedCables(a)| - 1] == Cable(a.source, a.portR, a.target, a.cto.second, a.color)
  {
  }

  /**
   * A neighbor item cables each side of the bus pair on which both buses have a port, first side
   * before second, each into the neighbor's input of that side from this module's output of that side.
   */
  lemma NeighborCables(a: ItemAction)
    requires a.ConnectToNeighbor?
    ensures |PlannedCables(a)| ==
      (if a.neIn.first >= 0 && a.meOut.first >= 0 then 1 else 0) + (if a.neIn.second >= 0 && a.meOut.second >= 0 then 1 else 0)
    ensures forall c :: c in PlannedCables(a) ==> c.inputModule == a.neighbor && c.outputModule == a.me
    ensures a.neIn.first >= 0 && a.meOut.first >= 0 ==>
      PlannedCables(a)[0] == Cable(a.neighbor, a.neIn.first, a.me, a.meOut.first, a.color)
    ensures a.neIn.second >= 0 && a.meOut.second >= 0 ==>
      PlannedCables(a)[|PlannedCables(a)| - 1] == Cable(a.neighbor, a.neIn.second, a.me, a.meOut.second, a.color)
  {
  }

  /** makeCableBetween: add the cable to the engine and its record to the complex action (or, without one, to the history). */
  method MakeCableBetween(engine: Engine, history: History, inModule: ModuleId, inId: int, outModule: ModuleId, outId: int,
                          col: Color, complexAction: ComplexAction?)
    modifies engine`cables, history`actions, complexAction
    ensures engine.cables == old(engine.cables) + [Cable(inModule, inId, outModule, outId, col)]
    ensures complexAction != null ==>
      && complexAction.actions == old(complexAction.actions) + [CableAdd(Cable(inModule, inId, outModule, outId, col))]
      && complexAction.name == old(complexAction.name)
      && history.actions == old(history.actions)
    ensures complexAction == null ==>
      history.actions == old(history.actions) + [CableAdd(Cable(inModule, inId, outModule, outId, col))]
  {
    var cable := Cable(inModule, inId, outModule, outId, col);
    engine.AddCable(cable);
    var hca := CableAdd(cable);
    if complexAction != null {
      complexAction.Push(hca);
    } else {
      history.Push(hca);
    }
  }

  /**
   * An item's click callback: add its cables to the engine, grouping their records in one
   * complex action that is pushed to the history once. Nothing else in the cable list changes.
   */
  method Activate(engine: Engine, history: History, a: ItemAction)
    modifies engine`cables, history`actions
    ensures engine.cables == old(engine.cables) + PlannedCables(a)
    ensures history.actions == old(history.actions) + [ActivationRecord(a)]
  {
    match a {
      case ConnectToInputs(_, _, _, _, _, _, _) => ConnectToInputsClick(engine, history, a);
      case ConnectFromOutputs(_, _, _, _, _, _, _) => ConnectFromOutputsClick(engine, history, a);
      case ConnectToNeighbor(_, _, _, _, _, _) => ConnectToNeighborClick(engine, history, a);
    }
  }

  /** The click lambda of addOutputConnector. */
  method ConnectToInputsClick(engine: Engine, history: History, a: ItemAction)
    requires a.ConnectToInputs?
    modifies engine`cables, history`actions
    ensures engine.cables == old(engine.cables) + PlannedCables(a)
    ensures history.actions == old(history.actions) + [ActivationRecord(a)]
  {
    var complexAction := new ComplexAction(a.name);
    if a.portL >= 0 {
      MakeCableBetween(engine, history, a.target, a.cto.first, a.source, a.portL, a.color, complexAction);
    }
    if a.portR >= 0 {
      MakeCableBetween(engine, history, a.target, a.cto.second, a.source, a.portR, a.color, complexAction);
    }
    assert complexAction.actions == CableAdds(PlannedCables(a));
    history.Push(complexAction.Record());
  }

  /** The click lambda of addInputConnector. */
  method ConnectFromOutputsClick(engine: Engine, history: History, a: ItemAction)
    requires a.ConnectFromOutputs?
    modifies engine`cables, history`actions
    ensures engine.cables == old(engine.cables) + PlannedCables(a)
    ensures history.actions == old(history.actions) + [ActivationRecord(a)]
  {
    var complexAction := new ComplexAction(a.name);
    if a.portL >= 0 {
      MakeCableBetween(engine, history, a.source, a.portL, a.target, a.cto.first, a.color, complexAction);
    }
    if a.portR >= 0 {
      MakeCableBetween(engine, history, a.source, a.portR, a.target, a.cto.second, a.color, complexAction);
    }
    assert complexAction.actions == CableAdds(PlannedCables(a));
    history.Push(complexAction.Record());
  }

  /** The click lambda of connectOutputToNeighorInput. */
  method ConnectToNeighborClick(engine: Engine, history: History, a: ItemAction)
    requires a.ConnectToNeighbor?
    modifies engine`cables, history`actions
    ensures engine.cables == old(engine.cables) + PlannedCables(a)
    ensures history.actions == old(history.actions) + [ActivationRecord(a)]
  {
    var complexAction := new ComplexAction(a.name);
    if a.neIn.first >= 0 && a.meOut.first >= 0 {
      MakeCableBetween(engine, history, a.neighbor, a.neIn.first, a.me, a.meOut.first, a.color, complexAction);
    }
    if a.neIn.second >= 0 && a.meOut.second >= 0 {
      MakeCableBetween(engine, history, a.neighbor, a.neIn.second, a.me, a.meOut.second, a.color, complexAction);
    }
    assert complexAction.actions == CableAdds(PlannedCables(a));
    history.Push(complexAction.Record());
  }

  /* ------------------------------------------------------------------ */
  /* The port widget's context menu                                      */
  /* ------------------------------------------------------------------ */

  /** The port and its stereo companion, ordered so that the left port comes first. */
  function StereoPair(lid: int, rid: int): (p: Pair)
    ensures p.second >= 0 ==> p.first <= p.second
    ensures multiset{p.first, p.second} == multiset{lid, rid}
    ensures rid < 0 || lid <= rid ==> p == Pair(lid, rid)
  {
    if rid >= 0 && lid > rid then Pair(rid, lid) else Pair(lid, rid)
  }

  /** The in-place swap of appendContextMenu. */
  method OrderStereoPair(portId: int, companion: int) returns (lid: int, rid: int)
    ensures rid >= 0 ==> lid <= rid
    ensures multiset{lid, rid} == multiset{portId, companion}
    ensures Pair(lid, rid) == StereoPair(portId, companion)
  {
    lid, rid := portId, companion;
    if rid >= 0 && lid > rid {
      lid, rid := rid, lid;
    }
  }

  /** The "connect as output to MixMaster" part: a separator if any peer exists, then a submenu per MixMaster and per AuxSpander. */
  function OutputPeerEntries(mix: seq<Module>, aux: seq<Module>, source: ModuleId, lr: Pair): seq<ConnectorEntry>
  {
    (if |mix| > 0 || |aux| > 0 then [Separator] else [])
      + PeerSubmenus(mix, MixMasterInputs, source, lr)
      + PeerSubmenus(aux, AuxSpanderReturns, source, lr)
  }

  /** The ports of the widget's pair are inputs of `me`. */
  predicate StereoInputsFit(me: Module, lr: Pair)
  {
    0 <= lr.first < |me.inputs| && lr.second < |me.inputs|
  }

  /** The "connect as input from MixMaster" part: nothing if either port is in use, else a separator and a submenu per AuxSpander. */
  function InputPeerEntries(aux: seq<Module>, me: Module, lr: Pair): seq<ConnectorEntry>
    requires StereoInputsFit(me, lr)
  {
    if me.inputs[lr.first].connected || (lr.second >= 0 && me.inputs[lr.second].connected) then []
    else [Separator] + PeerSubmenus(aux, AuxSpanderSends, me.id, lr)
  }

  /** Every peer submenu of the context menu captured the ordered pair, so its left port comes first. */
  lemma ContextSubmenusOrdered(mix: seq<Module>, aux: seq<Module>, me: Module, portId: int, companion: int)
    requires StereoInputsFit(me, StereoPair(portId, companion))
    ensures forall e :: e in OutputPeerEntries(mix, aux, me.id, StereoPair(portId, companion)) && e.Submenu? && e.onOpen.portR >= 0 ==>
      e.onOpen.portL <= e.onOpen.portR
    ensures forall e :: e in InputPeerEntries(aux, me, StereoPair(portId, companion)) && e.Submenu? && e.onOpen.portR >= 0 ==>
      e.onOpen.portL <= e.onOpen.portR
  {
    var lr := StereoPair(portId, companion);
    PeerSubmenusShape(mix, MixMasterInputs, me.id, lr);
    PeerSubmenusShape(aux, AuxSpanderReturns, me.id, lr);
    PeerSubmenusShape(aux, AuxSpanderSends, me.id, lr);
  }

  /** The input part is empty when either port is already connected, else it offers every AuxSpander. */
  lemma InputPeerEntriesGated(aux: seq<Module>, me: Module, lr: Pair)
    requires StereoInputsFit(me, lr)
    ensures me.inputs[lr.first].connected || (lr.second >= 0 && me.inputs[lr.second].connected) ==>
      InputPeerEntries(aux, me, lr) == []
    ensures !(me.inputs[lr.first].connected || (lr.second >= 0 && me.inputs[lr.second].connected)) ==>
      && |InputPeerEntries(aux, me, lr)| == |aux| + 1
      && InputPeerEntries(aux, me, lr)[0] == Separator
      && forall i :: 0 <= i < |aux| ==>
           InputPeerEntries(aux, me, lr)[1..][i] == Submenu(aux[i].model.name, SubmenuAction(AuxSpanderSends, aux[i].id, me.id, lr.first, lr.second))
  {
    PeerSubmenusShape(aux, AuxSpanderSends, me.id, lr);
  }

  lemma ConcatAssociative<T>(a: seq<T>, b: seq<T>, c: seq<T>, d: seq<T>)
    ensures a + b + c + d == a + (b + c + d)
  {
  }

  lemma ConcatAssociative3<T>(a: seq<T>, b: seq<T>, c: seq<T>)
    ensures a + b + c == a + (b + c)
  {
  }

  /** A port widget with the connection mixin. */
  class PortConnectionMixin {
    var moduleId: ModuleId
    var portId: int
    var connectAsOutputToMixmaster: bool
    var connectAsInputFromMixmaster: bool
    var mixMasterStereoCompanion: int
    var connectOutputToNeighbor: bool

    constructor (moduleId: ModuleId, portId: int)
      ensures this.moduleId == moduleId && this.portId == portId
      ensures !connectAsOutputToMixmaster && !connectAsInputFromMixmaster && !connectOutputToNeighbor
      ensures mixMasterStereoCompanion == -1
    {
      this.moduleId, this.portId := moduleId, portId;
      connectAsOutputToMixmaster, connectAsInputFromMixmaster, connectOutputToNeighbor := false, false, false;
      mixMasterStereoCompanion := -1;
    }

    /** What the context menu reads of the widget's module must exist. */
    predicate CanAppend(engine: Engine)
      reads this, engine
    {
      && moduleId in engine.modules
      && engine.modules[moduleId].id == moduleId
      && (connectOutputToNeighbor ==> NeighborFits(engine.modules[moduleId], ExpanderOf(engine.modules[moduleId], false, engine.modules), portId))
      && (connectAsInputFromMixmaster ==> StereoInputsFit(engine.modules[moduleId], StereoPair(portId, mixMasterStereoCompanion)))
    }

    /** The neighbor part of the context menu. */
    function NeighborPart(engine: Engine, color: Color): seq<ConnectorEntry>
      reads this, engine
      requires CanAppend(engine)
    {
      var me := engine.modules[moduleId];
      if connectOutputToNeighbor then NeighborEntries(me, ExpanderOf(me, false, engine.modules), portId, color) else []
    }

    /** The output-to-peer part of the context menu. */
    function OutputPart(engine: Engine): seq<ConnectorEntry>
      reads this, engine
    {
      if connectAsOutputToMixmaster
      then OutputPeerEntries(PeersIn(engine.moduleIds, engine.modules, MixMasterKind),
                             PeersIn(engine.moduleIds, engine.modules, AuxSpanderKind),
                             moduleId, StereoPair(portId, mixMasterStereoCompanion))
      else []
    }

    /** The input-from-peer part of the context menu. */
    function InputPart(engine: Engine): seq<ConnectorEntry>
      reads this, engine
      requires CanAppend(engine)
    {
      if connectAsInputFromMixmaster
      then InputPeerEntries(PeersIn(engine.moduleIds, engine.modules, AuxSpanderKind),
                            engine.modules[moduleId], StereoPair(portId, mixMasterStereoCompanion))
      else []
    }

    /** The entries appendContextMenu adds, in order: neighbor part, output-to-peer part, input-from-peer part. */
    function ContextMenuEntries(engine: Engine, color: Color): seq<ConnectorEntry>
      reads this, engine
      requires CanAppend(engine)
    {
      NeighborPart(engine, color) + OutputPart(engine) + InputPart(engine)
    }

    /** appendContextMenu */
    method AppendContextMenu(menu: ConnectorMenu, engine: Engine, color: Color)
      requires CanAppend(engine)
      modifies menu
      ensures menu.entries == old(menu.entries) + ContextMenuEntries(engine, color)
    {
      ghost var n, o, i := NeighborPart(engine, color), OutputPart(engine), InputPart(engine);
      AppendNeighborPart(menu, engine, color);
      assert menu.entries == old(menu.entries) + n;
      assert CanAppend(engine);
      AppendOutputPart(menu, engine);
      assert menu.entries == old(menu.entries) + n + o;
      AppendInputPart(menu, engine);
      assert ContextMenuEntries(engine, color) == n + o + i;
      ConcatAssociative(old(menu.entries), n, o, i);
    }

    /** The connectOutputToNeighbor block of appendContextMenu. */
    method AppendNeighborPart(menu: ConnectorMenu, engine: Engine, color: Color)
      requires CanAppend(engine)
      modifies menu
      ensures menu.entries == old(menu.entries) + NeighborPart(engine, color)
    {
      if connectOutputToNeighbor {
        ConnectOutputToNeighborInput(menu, engine, engine.modules[moduleId], false, portId, color);
      }
    }

    /** The connectAsOutputToMixmaster block of appendContextMenu. */
    method AppendOutputPart(menu: ConnectorMenu, engine: Engine)
      modifies menu
      ensures menu.entries == old(menu.entries) + OutputPart(engine)
    {
      if connectAsOutputToMixmaster {
        var mixM := FindMixMasters(engine);
        var auxM := FindAuxSpanders(engine);
        var lid, rid := OrderStereoPair(portId, mixMasterStereoCompanion);
        ghost var sep: seq<ConnectorEntry> := if |mixM| > 0 || |auxM| > 0 then [Separator] else [];
        if |mixM| > 0 || |auxM| > 0 {
          menu.AddChild(Separator);
        }
        assert menu.entries == old(menu.entries) + sep;
        AddPeerSubmenus(menu, mixM, MixMasterInputs, moduleId, Pair(lid, rid));
        AddPeerSubmenus(menu, auxM, AuxSpanderReturns, moduleId, Pair(lid, rid));
        ghost var p1, p2 := PeerSubmenus(mixM, MixMasterInputs, moduleId, Pair(lid, rid)), PeerSubmenus(auxM, AuxSpanderReturns, moduleId, Pair(lid, rid));
        assert OutputPart(engine) == sep + p1 + p2;
        ConcatAssociative(old(menu.entries), sep, p1, p2);
      }
    }

    /** The connectAsInputFromMixmaster block of appendContextMenu. */
    method AppendInputPart(menu: ConnectorMenu, engine: Engine)
      requires CanAppend(engine)
      modifies menu
      ensures menu.entries == old(menu.entries) + InputPart(engine)
    {
      if connectAsInputFromMixmaster {
        var auxM := FindAuxSpanders(engine);
        var lid, rid := OrderStereoPair(portId, mixMasterStereoCompanion);
        var me := engine.modules[moduleId];
        if me.inputs[lid].connected || (rid >= 0 && me.inputs[rid].connected) {
          // the menu is not shown
        } else {
          menu.AddChild(Separator);
          AddPeerSubmenus(menu, auxM, AuxSpanderSends, moduleId, Pair(lid, rid));
          assert InputPart(engine) == [Separator] + PeerSubmenus(auxM, AuxSpanderSends, moduleId, Pair(lid, rid));
          ConcatAssociative3(old(menu.entries), [Separator], PeerSubmenus(auxM, AuxSpanderSends, moduleId, Pair(lid, rid)));
        }
      }
    }
  }
}
