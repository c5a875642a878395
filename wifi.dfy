/**
 * Wi-Fi orchestration: the requests the network manager sends to the
 * station daemon (wpa_supplicant behind the `wifi_ctrl` client), modelled
 * as an abstract daemon that accepts or refuses each request.
 */
module Wifi {
  import opened Common
  import opened Text

  // ---------------------------------------------------------------------
  // Data

  datatype WifiErrorCode =
    | NoWifiDeviceFound
    | UnableToTurnOnWifi
    | UnableToTurnOffWifi
    | UnableToConnectToWifiDevice
    | UnableToDisconnectFromWifiDevice
    | UnableToGetWifiDeviceStatus
    | UnableToRemoveWifiDevice
    | Unknown

  /** A configured network as `get_networks` lists it. */
  datatype Network = Network(id: nat, ssid: string, flags: string)

  /** One entry of `get_scan`. */
  datatype ScanResult = ScanResult(mac: string, frequency: string, signal: int, flags: string, name: string)

  /** The requests the requester sends, with their arguments. */
  datatype Command =
    | GetNetworks
    | GetScan
    | AddNetwork
    | SetSsid(id: nat, ssid: string)
    | SetPsk(id: nat, psk: string)
    | Select(id: nat)
    | Remove(id: nat)
    | Shutdown

  /** The part of the daemon the requests read and change. */
  datatype DaemonState = DaemonState(known: seq<Network>, nextId: nat, shutDown: bool)

  /** The flags of a network `add_network` has just created. */
  const NEW_NETWORK_FLAGS := "[DISABLED]"

  /** The flags of the network the station is associated with. */
  const CURRENT_FLAGS := "[CURRENT]"

  /** The interface name `wifi_status` looks for in the `ifconfig` output. */
  const WLAN_INTERFACE := "wlan0"

  // ---------------------------------------------------------------------
  // The daemon, as a function of its state

  /** A request succeeds unless the session is shut down or the daemon refuses it. */
  predicate Accepts(st: DaemonState, cmd: Command, refused: set<Command>)
  {
    !st.shutDown && cmd !in refused
  }

  /** The networks with the ssid of network `id` replaced. */
  function Renamed(known: seq<Network>, id: nat, ssid: string): (r: seq<Network>)
    ensures |r| == |known|
    ensures forall j :: 0 <= j < |known| ==> r[j].id == known[j].id && r[j].flags == known[j].flags
    ensures forall j :: 0 <= j < |known| ==> r[j].ssid == if known[j].id == id then ssid else known[j].ssid
  {
    seq(|known|, j requires 0 <= j < |known| =>
      if known[j].id == id then known[j].(ssid := ssid) else known[j])
  }

  /** The networks other than `id`; with no network of that id, the list itself. */
  function Without(known: seq<Network>, id: nat): (r: seq<Network>)
    ensures forall n :: n in r <==> n in known && n.id != id
    ensures |r| <= |known|
    ensures (forall j :: 0 <= j < |known| ==> known[j].id != id) ==> r == known
  {
    if known == [] then []
    else if known[0].id == id then Without(known[1..], id)
    else [known[0]] + Without(known[1..], id)
  }

  /** What an accepted request does to the daemon. */
  function Effect(st: DaemonState, cmd: Command): DaemonState
  {
    match cmd
    case AddNetwork =>
      st.(known := st.known + [Network(st.nextId, "", NEW_NETWORK_FLAGS)], nextId := st.nextId + 1)
    case SetSsid(id, ssid) => st.(known := Renamed(st.known, id, ssid))
    case Remove(id) => st.(known := Without(st.known, id))
    case Shutdown => st.(shutDown := true)
    case _ => st
  }

  datatype StepResult = StepResult(state: DaemonState, accepted: bool)

  /** One request: a refused one changes nothing. */
  function Step(st: DaemonState, cmd: Command, refused: set<Command>): StepResult
  {
    if Accepts(st, cmd, refused) then StepResult(Effect(st, cmd), true) else StepResult(st, false)
  }

  /** Every network id is below the next one `add_network` hands out. */
  ghost predicate IdsBelow(st: DaemonState)
  {
    forall j :: 0 <= j < |st.known| ==> st.known[j].id < st.nextId
  }

  /** Requests keep the ids below the counter. */
  lemma StepKeepsIdsBelow(st: DaemonState, cmd: Command, refused: set<Command>)
    requires IdsBelow(st)
    ensures IdsBelow(Step(st, cmd, refused).state)
  {
    if Accepts(st, cmd, refused) && cmd.Remove? {
      var r := Without(st.known, cmd.id);
      forall j | 0 <= j < |r| ensures r[j].id < st.nextId {
        assert r[j] in st.known;
      }
    }
  }

  // ---------------------------------------------------------------------
  // Running a sequence of requests

  /** The requests actually sent, the state they leave, and whether all succeeded. */
  datatype Outcome = Outcome(issued: seq<Command>, final: DaemonState, ok: bool)

  /**
   * Sends `cmds` in order, each awaited with `?`: the first refused request
   * ends the run and nothing after it is sent.
   */
  function Run(st: DaemonState, cmds: seq<Command>, refused: set<Command>): Outcome
    decreases |cmds|
  {
    if cmds == [] then Outcome([], st, true)
    else
      var s := Step(st, cmds[0], refused);
      if !s.accepted then Outcome([cmds[0]], st, false)
      else
        var rest := Run(s.state, cmds[1..], refused);
        Outcome([cmds[0]] + rest.issued, rest.final, rest.ok)
  }

  /**
   * A run sends a prefix of its requests: all of them when it succeeds,
   * otherwise up to the refused one, which is the last sent.
   */
  lemma {:induction false} RunIssuesPrefix(st: DaemonState, cmds: seq<Command>, refused: set<Command>)
    ensures var o := Run(st, cmds, refused);
            (o.ok ==> o.issued == cmds) &&
            (!o.ok ==> 0 < |o.issued| <= |cmds| && o.issued == cmds[..|o.issued|]
                       && !Step(o.final, o.issued[|o.issued| - 1], refused).accepted)
    decreases |cmds|
  {
    if cmds != [] {
      var s := Step(st, cmds[0], refused);
      if s.accepted {
        RunIssuesPrefix(s.state, cmds[1..], refused);
        var rest := Run(s.state, cmds[1..], refused);
        if !rest.ok {
          assert [cmds[0]] + rest.issued == cmds[..1 + |rest.issued|];
        } else {
          assert [cmds[0]] + cmds[1..] == cmds;
        }
      }
    }
  }

  /** A run of requests keeps the ids below the counter. */
  lemma {:induction false} RunKeepsIdsBelow(st: DaemonState, cmds: seq<Command>, refused: set<Command>)
    requires IdsBelow(st)
    ensures IdsBelow(Run(st, cmds, refused).final)
    decreases |cmds|
  {
    if cmds != [] {
      StepKeepsIdsBelow(st, cmds[0], refused);
      var s := Step(st, cmds[0], refused);
      if s.accepted {
        RunKeepsIdsBelow(s.state, cmds[1..], refused);
      }
    }
  }

  /** Running `c` then `rest`, one request at a time. */
  lemma RunCons(st: DaemonState, c: Command, rest: seq<Command>, refused: set<Command>)
    ensures Run(st, [c] + rest, refused) ==
            var s := Step(st, c, refused);
            if !s.accepted then Outcome([c], st, false)
            else
              var o := Run(s.state, rest, refused);
              Outcome([c] + o.issued, o.final, o.ok)
  {
    assert ([c] + rest)[0] == c && ([c] + rest)[1..] == rest;
  }

  /** At most the last request shuts the session down. */
  predicate ShutdownOnlyLast(cmds: seq<Command>)
  {
    forall j :: 0 <= j < |cmds| - 1 ==> cmds[j] != Shutdown
  }

  /** The position of the first request the daemon refuses. */
  function FirstRefused(cmds: seq<Command>, refused: set<Command>): (r: Option<nat>)
    ensures r.None? <==> forall j :: 0 <= j < |cmds| ==> cmds[j] !in refused
    ensures r.Some? ==> r.value < |cmds| && cmds[r.value] in refused
                        && forall j :: 0 <= j < r.value ==> cmds[j] !in refused
  {
    if cmds == [] then None
    else if cmds[0] in refused then Some(0)
    else
      var r := FirstRefused(cmds[1..], refused);
      assert forall j :: 0 < j < |cmds| ==> cmds[j] == cmds[1..][j - 1];
      match r
      case None => None
      case Some(k) => Some(k + 1)
  }

  /**
   * In an open session whose only shutdown comes last, a run sends every
   * request up to and including the first refused one, and succeeds iff
   * none is refused.
   */
  lemma {:induction false} RunStopsAtFirstRefusal(st: DaemonState, cmds: seq<Command>, refused: set<Command>)
    requires !st.shutDown && ShutdownOnlyLast(cmds)
    ensures var o := Run(st, cmds, refused);
            match FirstRefused(cmds, refused)
            case None => o.ok && o.issued == cmds
            case Some(k) => !o.ok && o.issued == cmds[..k + 1]
    decreases |cmds|
  {
    if cmds != [] && cmds[0] !in refused {
      var s := Step(st, cmds[0], refused);
      var tail := cmds[1..];
      assert ShutdownOnlyLast(tail) by {
        forall j | 0 <= j < |tail| - 1 ensures tail[j] != Shutdown { assert tail[j] == cmds[j + 1]; }
      }
      if tail != [] {
        assert cmds[0] != Shutdown;
        assert !s.state.shutDown;
        RunStopsAtFirstRefusal(s.state, tail, refused);
        assert cmds == [cmds[0]] + tail;
        match FirstRefused(tail, refused)
        case None =>
        case Some(k) =>
          assert FirstRefused(cmds, refused) == Some(k + 1);
          assert [cmds[0]] + tail[..k + 1] == cmds[..k + 2];
      }
    }
  }

  // ---------------------------------------------------------------------
  // connect_wifi, as a plan

  /** The position of the first network whose ssid is `ssid`. */
  function FirstWithSsid(known: seq<Network>, ssid: string): (r: Option<nat>)
    ensures r.None? <==> forall j :: 0 <= j < |known| ==> known[j].ssid != ssid
    ensures r.Some? ==> r.value < |known| && known[r.value].ssid == ssid
                        && forall j :: 0 <= j < r.value ==> known[j].ssid != ssid
  {
    if known == [] then None
    else if known[0].ssid == ssid then Some(0)
    else
      var r := FirstWithSsid(known[1..], ssid);
      assert forall j :: 0 < j < |known| ==> known[j] == known[1..][j - 1];
      match r
      case None => None
      case Some(k) => Some(k + 1)
  }

  /**
   * The requests `connect_wifi` sends after `get_networks` returned `known`:
   * select the first network with the ssid, or create one with the id
   * `add_network` returns (`newId`) and select that.
   */
  function ConnectPlan(known: seq<Network>, ssid: string, psk: string, newId: nat): seq<Command>
  {
    match FirstWithSsid(known, ssid)
    case Some(k) => [Select(known[k].id), Shutdown]
    case None => [AddNetwork, SetSsid(newId, ssid), SetPsk(newId, psk), Select(newId), Shutdown]
  }

  /** Every request `connect_wifi` would send, starting from `st`. */
  function ConnectTrace(st: DaemonState, ssid: string, psk: string): seq<Command>
  {
    [GetNetworks] + ConnectPlan(st.known, ssid, psk, st.nextId)
  }

  /**
   * How `connect_wifi` reports the request that failed: `get_networks`,
   * and on the create path `add_network` and `select_network`, are wrapped
   * in a Wi-Fi error; the others are passed on by `?`.
   */
  datatype ConnectError = WifiFailure(code: WifiErrorCode, failed: Command) | DaemonFailure(failed: Command)

  function ConnectErrorOf(failed: Command, created: bool): ConnectError
  {
    if failed == GetNetworks || (created && (failed == AddNetwork || failed.Select?)) then
      WifiFailure(UnableToConnectToWifiDevice, failed)
    else DaemonFailure(failed)
  }

  /** Both plans shut down last only. */
  lemma ConnectTraceShape(st: DaemonState, ssid: string, psk: string)
    ensures ShutdownOnlyLast(ConnectTrace(st, ssid, psk))
    ensures ConnectTrace(st, ssid, psk)[0] == GetNetworks
  {
  }

  /**
   * Reuse: when a known network has the ssid, connect selects the first
   * such network and shuts down, and never adds or configures a network.
   */
  lemma ReuseSelectsFirstMatch(st: DaemonState, ssid: string, psk: string, refused: set<Command>, k: nat)
    requires k < |st.known| && st.known[k].ssid == ssid
    requires forall j :: 0 <= j < k ==> st.known[j].ssid != ssid
    ensures ConnectTrace(st, ssid, psk) == [GetNetworks, Select(st.known[k].id), Shutdown]
    ensures forall c :: c in Run(st, ConnectTrace(st, ssid, psk), refused).issued ==>
              !c.AddNetwork? && !c.SetSsid? && !c.SetPsk?
  {
    var o := Run(st, ConnectTrace(st, ssid, psk), refused);
    RunIssuesPrefix(st, ConnectTrace(st, ssid, psk), refused);
    assert forall c :: c in o.issued ==> c in ConnectTrace(st, ssid, psk);
  }

  /** The requests that configure and select a network `add_network` created. */
  function CreateSteps(id: nat, ssid: string, psk: string): seq<Command>
  {
    [SetSsid(id, ssid), SetPsk(id, psk), Select(id), Shutdown]
  }

  /**
   * Configuring a network keeps the list's length and ids, and when every
   * request succeeds the networks with that id carry the ssid.
   */
  lemma CreateStepsKeepIds(st: DaemonState, id: nat, ssid: string, psk: string, refused: set<Command>)
    ensures var o := Run(st, CreateSteps(id, ssid, psk), refused);
            |o.final.known| == |st.known| &&
            (forall j :: 0 <= j < |st.known| ==> o.final.known[j].id == st.known[j].id) &&
            (o.ok ==> forall j :: 0 <= j < |st.known| && st.known[j].id == id ==> o.final.known[j].ssid == ssid)
  {
    var named := Effect(st, SetSsid(id, ssid));
    RunCons(st, SetSsid(id, ssid), [SetPsk(id, psk), Select(id), Shutdown], refused);
    RunCons(named, SetPsk(id, psk), [Select(id), Shutdown], refused);
    RunCons(named, Select(id), [Shutdown], refused);
    RunCons(named, Shutdown, [], refused);
  }

  /** The outcome of configuring a network, case by case. */
  lemma CreateStepsOutcome(st: DaemonState, id: nat, ssid: string, psk: string, refused: set<Command>)
    requires !st.shutDown
    ensures var named := Effect(st, SetSsid(id, ssid));
            Run(st, CreateSteps(id, ssid, psk), refused) ==
              if SetSsid(id, ssid) in refused then Outcome([SetSsid(id, ssid)], st, false)
              else if SetPsk(id, psk) in refused then Outcome([SetSsid(id, ssid), SetPsk(id, psk)], named, false)
              else if Select(id) in refused then Outcome([SetSsid(id, ssid), SetPsk(id, psk), Select(id)], named, false)
              else if Shutdown in refused then Outcome(CreateSteps(id, ssid, psk), named, false)
              else Outcome(CreateSteps(id, ssid, psk), named.(shutDown := true), true)
  {
    var named := Effect(st, SetSsid(id, ssid));
    RunCons(st, SetSsid(id, ssid), [SetPsk(id, psk), Select(id), Shutdown], refused);
    RunCons(named, SetPsk(id, psk), [Select(id), Shutdown], refused);
    RunCons(named, Select(id), [Shutdown], refused);
    RunCons(named, Shutdown, [], refused);
  }

  /** With no known network of the ssid, connect takes the create path. */
  lemma CreateTrace(st: DaemonState, ssid: string, psk: string)
    requires forall j :: 0 <= j < |st.known| ==> st.known[j].ssid != ssid
    ensures ConnectTrace(st, ssid, psk) == [GetNetworks] + ([AddNetwork] + CreateSteps(st.nextId, ssid, psk))
  {
  }

  /**
   * Create: with no known network of that ssid, connect sends add, set
   * ssid, set psk and select, all for the id the counter hands out, then
   * shuts down; if every request succeeds the new network carries the ssid.
   */
  lemma CreateUsesNewId(st: DaemonState, ssid: string, psk: string, refused: set<Command>)
    requires forall j :: 0 <= j < |st.known| ==> st.known[j].ssid != ssid
    ensures ConnectTrace(st, ssid, psk) ==
            [GetNetworks, AddNetwork, SetSsid(st.nextId, ssid), SetPsk(st.nextId, psk), Select(st.nextId), Shutdown]
    ensures var o := Run(st, ConnectTrace(st, ssid, psk), refused);
            o.ok ==> |o.final.known| == |st.known| + 1 && o.final.known[|st.known|].id == st.nextId
                     && o.final.known[|st.known|].ssid == ssid
  {
    CreateTrace(st, ssid, psk);
    var added := Effect(st, AddNetwork);
    RunCons(st, GetNetworks, [AddNetwork] + CreateSteps(st.nextId, ssid, psk), refused);
    RunCons(st, AddNetwork, CreateSteps(st.nextId, ssid, psk), refused);
    CreateStepsKeepIds(added, st.nextId, ssid, psk, refused);
  }

  /**
   * No rollback: once `add_network` has succeeded, a later failure leaves
   * the new network in the daemon.
   */
  lemma NoRollbackAfterAdd(st: DaemonState, ssid: string, psk: string, refused: set<Command>)
    requires Accepts(st, GetNetworks, refused) && Accepts(st, AddNetwork, refused)
    requires forall j :: 0 <= j < |st.known| ==> st.known[j].ssid != ssid
    ensures var o := Run(st, ConnectTrace(st, ssid, psk), refused);
            |o.final.known| == |st.known| + 1 && o.final.known[|st.known|].id == st.nextId
  {
    CreateTrace(st, ssid, psk);
    var added := Effect(st, AddNetwork);
    RunCons(st, GetNetworks, [AddNetwork] + CreateSteps(st.nextId, ssid, psk), refused);
    RunCons(st, AddNetwork, CreateSteps(st.nextId, ssid, psk), refused);
    CreateStepsKeepIds(added, st.nextId, ssid, psk, refused);
  }

  /** A refused `get_networks` ends connect before any other request. */
  lemma GetNetworksFailureStopsConnect(st: DaemonState, ssid: string, psk: string, refused: set<Command>)
    requires GetNetworks in refused
    ensures var o := Run(st, ConnectTrace(st, ssid, psk), refused);
            !o.ok && o.issued == [GetNetworks] && o.final == st
            && ConnectErrorOf(o.issued[0], FirstWithSsid(st.known, ssid).None?) ==
               WifiFailure(UnableToConnectToWifiDevice, GetNetworks)
  {
    var trace := ConnectTrace(st, ssid, psk);
    RunCons(st, GetNetworks, trace[1..], refused);
    assert trace == [GetNetworks] + trace[1..];
  }

  /**
   * Connect never changes a network that was already known: on the reuse
   * path nothing is renamed, and on the create path `set_network_ssid`
   * names the id the counter handed out, which no earlier network has.
   */
  lemma ConnectKeepsKnown(st: DaemonState, ssid: string, psk: string, refused: set<Command>)
    requires IdsBelow(st)
    ensures var o := Run(st, ConnectTrace(st, ssid, psk), refused);
            |st.known| <= |o.final.known| && o.final.known[..|st.known|] == st.known
  {
    var trace := ConnectTrace(st, ssid, psk);
    RunCons(st, GetNetworks, trace[1..], refused);
    assert trace == [GetNetworks] + trace[1..];
    if Accepts(st, GetNetworks, refused) {
      match FirstWithSsid(st.known, ssid)
      case Some(k) =>
        var id := st.known[k].id;
        assert trace[1..] == [Select(id), Shutdown];
        RunCons(st, Select(id), [Shutdown], refused);
        RunCons(st, Shutdown, [], refused);
      case None =>
        var added := Effect(st, AddNetwork);
        var named := Effect(added, SetSsid(st.nextId, ssid));
        assert trace[1..] == [AddNetwork] + CreateSteps(st.nextId, ssid, psk);
        RunCons(st, AddNetwork, CreateSteps(st.nextId, ssid, psk), refused);
        CreateStepsOutcome(added, st.nextId, ssid, psk, refused);
        assert added.known[..|st.known|] == st.known;
        assert named.known[..|st.known|] == st.known by {
          forall j | 0 <= j < |st.known| ensures named.known[j] == st.known[j] {
            assert added.known[j] == st.known[j];
          }
        }
    }
  }

  // ---------------------------------------------------------------------
  // current_wifi_network, as a function

  /** The position of the first network flagged exactly `[CURRENT]`. */
  function FirstCurrent(known: seq<Network>): (r: Option<nat>)
    ensures r.None? <==> forall j :: 0 <= j < |known| ==> known[j].flags != CURRENT_FLAGS
    ensures r.Some? ==> r.value < |known| && known[r.value].flags == CURRENT_FLAGS
                        && forall j :: 0 <= j < r.value ==> known[j].flags != CURRENT_FLAGS
  {
    if known == [] then None
    else if known[0].flags == CURRENT_FLAGS then Some(0)
    else
      var r := FirstCurrent(known[1..]);
      assert forall j :: 0 < j < |known| ==> known[j] == known[1..][j - 1];
      match r
      case None => None
      case Some(k) => Some(k + 1)
  }

  /** The position of the first scan entry named `name`. */
  function FirstNamed(scan: seq<ScanResult>, name: string): (r: Option<nat>)
    ensures r.None? <==> forall j :: 0 <= j < |scan| ==> scan[j].name != name
    ensures r.Some? ==> r.value < |scan| && scan[r.value].name == name
                        && forall j :: 0 <= j < r.value ==> scan[j].name != name
  {
    if scan == [] then None
    else if scan[0].name == name then Some(0)
    else
      var r := FirstNamed(scan[1..], name);
      assert forall j :: 0 < j < |scan| ==> scan[j] == scan[1..][j - 1];
      match r
      case None => None
      case Some(k) => Some(k + 1)
  }

  /**
   * The current network: the first scan entry named like the first known
   * network flagged `[CURRENT]`; `None` when no network is flagged or the
   * flagged one is not in the scan.
   */
  function ResolveCurrent(known: seq<Network>, scan: seq<ScanResult>): (r: Option<ScanResult>)
    ensures r.Some? <==> exists i, j :: 0 <= i < |known| && 0 <= j < |scan| &&
                                        known[i].flags == CURRENT_FLAGS && scan[j].name == known[i].ssid &&
                                        FirstCurrent(known) == Some(i)
    ensures r.Some? ==> exists i, j :: 0 <= i < |known| && 0 <= j < |scan| &&
                                       FirstCurrent(known) == Some(i) && FirstNamed(scan, known[i].ssid) == Some(j) &&
                                       r.value == scan[j]
  {
    match FirstCurrent(known)
    case None => None
    case Some(i) =>
      match FirstNamed(scan, known[i].ssid)
      case None => None
      case Some(j) => Some(scan[j])
  }

  /** `wifi_status`: whether the `ifconfig` output mentions `wlan0`. */
  function WifiStatus(stdout: string): (r: bool)
    ensures r <==> exists i: nat :: OccursAt(stdout, WLAN_INTERFACE, i)
  {
    Contains(stdout, WLAN_INTERFACE)
  }

  // ---------------------------------------------------------------------
  // The daemon and the requester

  /**
   * The station daemon with one requester session at a time. `refused` is
   * the set of requests it answers with an error, `reachable` whether
   * `WifiSetup::new` can reach it, `scanResults` what `get_scan` returns.
   */
  class Daemon {
    var known: seq<Network>
    var nextId: nat
    var shutDown: bool
    var log: seq<Command>
    const scanResults: seq<ScanResult>
    const refused: set<Command>
    const reachable: bool

    function State(): DaemonState
      reads this
    {
      DaemonState(known, nextId, shutDown)
    }

    /** A daemon whose counter is past every listed network's id. */
    constructor (known: seq<Network>, nextId: nat, scanResults: seq<ScanResult>, refused: set<Command>, reachable: bool)
      requires forall j :: 0 <= j < |known| ==> known[j].id < nextId
      ensures this.known == known && this.scanResults == scanResults
      ensures this.refused == refused && this.reachable == reachable
      ensures this.nextId == nextId && !shutDown && log == []
      ensures IdsBelow(State())
    {
      this.known := known;
      this.nextId := nextId;
      this.shutDown := false;
      this.log := [];
      this.scanResults := scanResults;
      this.refused := refused;
      this.reachable := reachable;
    }

    /** `WifiSetup::new` and `complete`: opens a fresh session when the daemon is reachable. */
    method Open() returns (ok: bool)
      modifies this
      ensures ok == reachable
      ensures ok ==> State() == old(State()).(shutDown := false)
      ensures !ok ==> State() == old(State())
      ensures log == old(log)
    {
      if !reachable {
        return false;
      }
      shutDown := false;
      ok := true;
    }

    /** Sends one request; the log records it whether or not it succeeds. */
    method Issue(cmd: Command) returns (accepted: bool)
      modifies this
      ensures accepted == Step(old(State()), cmd, refused).accepted
      ensures State() == Step(old(State()), cmd, refused).state
      ensures log == old(log) + [cmd]
      ensures IdsBelow(old(State())) ==> IdsBelow(State())
    {
      if IdsBelow(State()) {
        StepKeepsIdsBelow(State(), cmd, refused);
      }
      log := log + [cmd];
      accepted := !shutDown && cmd !in refused;
      if !accepted {
        return;
      }
      match cmd {
        case AddNetwork =>
          known := known + [Network(nextId, "", NEW_NETWORK_FLAGS)];
          nextId := nextId + 1;
        case SetSsid(id, ssid) => known := Renamed(known, id, ssid);
        case Remove(id) => known := Without(known, id);
        case Shutdown => shutDown := true;
        case _ =>
      }
    }

    method FetchNetworks() returns (r: Option<seq<Network>>)
      modifies this
      ensures State() == old(State()) && log == old(log) + [GetNetworks]
      ensures r == if Accepts(old(State()), GetNetworks, refused) then Some(old(known)) else None
    {
      var ok := Issue(GetNetworks);
      r := if ok then Some(known) else None;
    }

    method FetchScan() returns (r: Option<seq<ScanResult>>)
      modifies this
      ensures State() == old(State()) && log == old(log) + [GetScan]
      ensures r == if Accepts(old(State()), GetScan, refused) then Some(scanResults) else None
    {
      var ok := Issue(GetScan);
      r := if ok then Some(scanResults) else None;
    }

    /** `add_network`: the new network's id is the counter's old value. */
    method CreateNetwork() returns (r: Option<nat>)
      modifies this
      ensures State() == Step(old(State()), AddNetwork, refused).state && log == old(log) + [AddNetwork]
      ensures r == if Accepts(old(State()), AddNetwork, refused) then Some(old(nextId)) else None
    {
      var id := nextId;
      var ok := Issue(AddNetwork);
      r := if ok then Some(id) else None;
    }
  }

  // ---------------------------------------------------------------------
  // The requester's routines (each runs inside one session)

  /**
   * `connect_wifi`: lists the networks, selects the first with the ssid or
   * creates, names, keys and selects a new one, then shuts the session down.
   */
  method ConnectWifi(d: Daemon, ssid: string, psk: string) returns (r: Result<(), ConnectError>)
    modifies d
    ensures var st := old(d.State());
            var o := Run(st, ConnectTrace(st, ssid, psk), d.refused);
            d.log == old(d.log) + o.issued && d.State() == o.final && (r.Ok? <==> o.ok) &&
            (r.Err? ==> r.error == ConnectErrorOf(o.issued[|o.issued| - 1], FirstWithSsid(st.known, ssid).None?))
  {
    ghost var st := d.State();
    ghost var plan := ConnectPlan(st.known, ssid, psk, st.nextId);
    ghost var refused := d.refused;
    assert ConnectTrace(st, ssid, psk) == [GetNetworks] + plan;
    RunCons(st, GetNetworks, plan, refused);
    var listed := d.FetchNetworks();
    if listed.None? {
      return Err(WifiFailure(UnableToConnectToWifiDevice, GetNetworks));
    }
    var networks := listed.value;
    var i := 0;
    while i < |networks|
      invariant i <= |networks| && networks == st.known
      invariant forall j :: 0 <= j < i ==> networks[j].ssid != ssid
      invariant d.State() == st && d.log == old(d.log) + [GetNetworks]
    {
      if networks[i].ssid == ssid {
        var id := networks[i].id;
        assert plan == [Select(id), Shutdown];
        r := SelectKnown(d, id);
        return;
      }
      i := i + 1;
    }
    CreateTrace(st, ssid, psk);
    assert plan == [AddNetwork] + CreateSteps(st.nextId, ssid, psk);
    r := ConnectNew(d, ssid, psk);
  }

  /** The select branch of `connect_wifi`: select the known network, then shut down. */
  method SelectKnown(d: Daemon, id: nat) returns (r: Result<(), ConnectError>)
    modifies d
    ensures var o := Run(old(d.State()), [Select(id), Shutdown], d.refused);
            d.log == old(d.log) + o.issued && d.State() == o.final && (r.Ok? <==> o.ok) && o.issued != [] &&
            (r.Err? ==> r.error == ConnectErrorOf(o.issued[|o.issued| - 1], false))
  {
    RunCons(d.State(), Select(id), [Shutdown], d.refused);
    RunCons(d.State(), Shutdown, [], d.refused);
    var ok := d.Issue(Select(id));
    if !ok {
      return Err(DaemonFailure(Select(id)));
    }
    ok := d.Issue(Shutdown);
    if !ok {
      return Err(DaemonFailure(Shutdown));
    }
    r := Ok(());
  }

  /**
   * The create branch of `connect_wifi`: add a network, give it the ssid
   * and the key, select it and shut down, all with the id `add_network`
   * returned; a failure stops there and nothing is undone.
   */
  method ConnectNew(d: Daemon, ssid: string, psk: string) returns (r: Result<(), ConnectError>)
    modifies d
    ensures var st := old(d.State());
            var o := Run(st, [AddNetwork] + CreateSteps(st.nextId, ssid, psk), d.refused);
            d.log == old(d.log) + o.issued && d.State() == o.final && (r.Ok? <==> o.ok) &&
            (r.Err? ==> r.error == ConnectErrorOf(o.issued[|o.issued| - 1], true))
  {
    ghost var st := d.State();
    ghost var refused := d.refused;
    RunCons(st, AddNetwork, CreateSteps(st.nextId, ssid, psk), refused);
    var added := d.CreateNetwork();
    if added.None? {
      return Err(WifiFailure(UnableToConnectToWifiDevice, AddNetwork));
    }
    r := Configure(d, added.value, ssid, psk);
  }

  /**
   * The rest of the create branch: name and key the new network, select it
   * and shut down; the failed request is reported as `connect_wifi` does.
   */
  method Configure(d: Daemon, id: nat, ssid: string, psk: string) returns (r: Result<(), ConnectError>)
    requires !d.shutDown
    modifies d
    ensures var o := Run(old(d.State()), CreateSteps(id, ssid, psk), d.refused);
            d.log == old(d.log) + o.issued && d.State() == o.final && (r.Ok? <==> o.ok) && o.issued != [] &&
            (r.Err? ==> r.error == ConnectErrorOf(o.issued[|o.issued| - 1], true))
  {
    CreateStepsOutcome(d.State(), id, ssid, psk, d.refused);
    var ok := d.Issue(SetSsid(id, ssid));
    if !ok {
      return Err(DaemonFailure(SetSsid(id, ssid)));
    }
    ok := d.Issue(SetPsk(id, psk));
    if !ok {
      return Err(DaemonFailure(SetPsk(id, psk)));
    }
    ok := d.Issue(Select(id));
    if !ok {
      return Err(WifiFailure(UnableToConnectToWifiDevice, Select(id)));
    }
    ok := d.Issue(Shutdown);
    if !ok {
      return Err(DaemonFailure(Shutdown));
    }
    r := Ok(());
  }

  /** `wifi_list`: `get_scan`, then `shutdown`; the scan in the daemon's order. */
  method WifiList(d: Daemon) returns (r: Result<seq<ScanResult>, Command>)
    modifies d
    ensures var o := Run(old(d.State()), [GetScan, Shutdown], d.refused);
            d.log == old(d.log) + o.issued && d.State() == o.final &&
            r == if o.ok then Ok(d.scanResults) else Err(o.issued[|o.issued| - 1])
  {
    RunCons(d.State(), GetScan, [Shutdown], d.refused);
    RunCons(d.State(), Shutdown, [], d.refused);
    var scan := d.FetchScan();
    if scan.None? {
      return Err(GetScan);
    }
    var ok := d.Issue(Shutdown);
    if !ok {
      return Err(Shutdown);
    }
    r := Ok(scan.value);
  }

  /** `known_wifi`: `get_networks`, then `shutdown`. */
  method KnownWifi(d: Daemon) returns (r: Result<seq<Network>, Command>)
    modifies d
    ensures var o := Run(old(d.State()), [GetNetworks, Shutdown], d.refused);
            d.log == old(d.log) + o.issued && d.State() == o.final &&
            r == if o.ok then Ok(old(d.known)) else Err(o.issued[|o.issued| - 1])
  {
    RunCons(d.State(), GetNetworks, [Shutdown], d.refused);
    RunCons(d.State(), Shutdown, [], d.refused);
    var networks := d.FetchNetworks();
    if networks.None? {
      return Err(GetNetworks);
    }
    var ok := d.Issue(Shutdown);
    if !ok {
      return Err(Shutdown);
    }
    r := Ok(networks.value);
  }

  /** `remove_wifi`: `remove_network(id)`, then `shutdown`. */
  method RemoveWifi(d: Daemon, id: nat) returns (r: Result<(), Command>)
    modifies d
    ensures var o := Run(old(d.State()), [Remove(id), Shutdown], d.refused);
            d.log == old(d.log) + o.issued && d.State() == o.final &&
            r == if o.ok then Ok(()) else Err(o.issued[|o.issued| - 1])
  {
    ghost var st := d.State();
    RunCons(st, Remove(id), [Shutdown], d.refused);
    RunCons(Effect(st, Remove(id)), Shutdown, [], d.refused);
    var ok := d.Issue(Remove(id));
    if !ok {
      return Err(Remove(id));
    }
    ok := d.Issue(Shutdown);
    if !ok {
      return Err(Shutdown);
    }
    r := Ok(());
  }

  // ---------------------------------------------------------------------
  // The public operations (each opens its own session)

  /** The state a new session starts from. */
  function Opened(st: DaemonState): DaemonState
  {
    st.(shutDown := false)
  }

  /** `scan_wireless_network`: any failure is `UnableToGetWifiDeviceStatus`. */
  method ScanWirelessNetwork(d: Daemon) returns (r: Result<seq<ScanResult>, WifiErrorCode>)
    modifies d
    ensures !d.reachable ==> r == Err(UnableToGetWifiDeviceStatus) && d.State() == old(d.State()) && d.log == old(d.log)
    ensures d.reachable ==>
              var o := Run(Opened(old(d.State())), [GetScan, Shutdown], d.refused);
              d.log == old(d.log) + o.issued && d.State() == o.final &&
              r == if o.ok then Ok(d.scanResults) else Err(UnableToGetWifiDeviceStatus)
  {
    var open := d.Open();
    if !open {
      return Err(UnableToGetWifiDeviceStatus);
    }
    var scan := WifiList(d);
    r := if scan.Ok? then Ok(scan.value) else Err(UnableToGetWifiDeviceStatus);
  }

  /** `get_known_wifi_list`: any failure is `UnableToGetWifiDeviceStatus`. */
  method GetKnownWifiList(d: Daemon) returns (r: Result<seq<Network>, WifiErrorCode>)
    modifies d
    ensures !d.reachable ==> r == Err(UnableToGetWifiDeviceStatus) && d.State() == old(d.State()) && d.log == old(d.log)
    ensures d.reachable ==>
              var o := Run(Opened(old(d.State())), [GetNetworks, Shutdown], d.refused);
              d.log == old(d.log) + o.issued && d.State() == o.final &&
              r == if o.ok then Ok(old(d.known)) else Err(UnableToGetWifiDeviceStatus)
  {
    var open := d.Open();
    if !open {
      return Err(UnableToGetWifiDeviceStatus);
    }
    var networks := KnownWifi(d);
    r := if networks.Ok? then Ok(networks.value) else Err(UnableToGetWifiDeviceStatus);
  }

  /**
   * `current_wifi_network`: lists the known networks, then scans (even when
   * no network is flagged current), then resolves the current network; every
   * way of not finding it is `UnableToGetWifiDeviceStatus`.
   */
  method CurrentWifiNetwork(d: Daemon) returns (r: Result<ScanResult, WifiErrorCode>)
    modifies d
    ensures r.Err? ==> r.error == UnableToGetWifiDeviceStatus
    ensures !d.reachable ==> r.Err? && d.log == old(d.log) && d.State() == old(d.State())
    ensures d.reachable ==>
              var o1 := Run(Opened(old(d.State())), [GetNetworks, Shutdown], d.refused);
              var o2 := Run(Opened(o1.final), [GetScan, Shutdown], d.refused);
              (!o1.ok ==> r.Err? && d.log == old(d.log) + o1.issued && d.State() == o1.final) &&
              (o1.ok ==> d.log == old(d.log) + o1.issued + o2.issued && d.State() == o2.final &&
                         r == match ResolveCurrent(old(d.known), d.scanResults)
                              case Some(s) => if o2.ok then Ok(s) else Err(UnableToGetWifiDeviceStatus)
                              case None => Err(UnableToGetWifiDeviceStatus))
  {
    var known := GetKnownWifiList(d);
    if known.Err? {
      return Err(known.error);
    }
    var current := FirstCurrent(known.value);
    var scan := ScanWirelessNetwork(d);
    if scan.Err? {
      return Err(scan.error);
    }
    var found := None;
    if current.Some? {
      var j := FirstNamed(scan.value, known.value[current.value].ssid);
      if j.Some? {
        found := Some(scan.value[j.value]);
      }
    }
    match found {
      case Some(s) => r := Ok(s);
      case None => r := Err(UnableToGetWifiDeviceStatus);
    }
  }

  /** `connect_wireless_network`: every failure of `connect_wifi` becomes `UnableToConnectToWifiDevice`. */
  method ConnectWirelessNetwork(d: Daemon, ssid: string, psk: string) returns (r: Result<(), WifiErrorCode>)
    modifies d
    ensures !d.reachable ==> r == Err(UnableToGetWifiDeviceStatus) && d.State() == old(d.State()) && d.log == old(d.log)
    ensures d.reachable ==>
              var st := Opened(old(d.State()));
              var o := Run(st, ConnectTrace(st, ssid, psk), d.refused);
              d.log == old(d.log) + o.issued && d.State() == o.final &&
              r == if o.ok then Ok(()) else Err(UnableToConnectToWifiDevice)
    ensures IdsBelow(old(d.State())) ==>
              IdsBelow(d.State()) && |old(d.known)| <= |d.known| && d.known[..|old(d.known)|] == old(d.known)
  {
    var open := d.Open();
    if !open {
      return Err(UnableToGetWifiDeviceStatus);
    }
    ghost var st := d.State();
    if IdsBelow(st) {
      RunKeepsIdsBelow(st, ConnectTrace(st, ssid, psk), d.refused);
      ConnectKeepsKnown(st, ssid, psk, d.refused);
    }
    var connected := ConnectWifi(d, ssid, psk);
    r := if connected.Ok? then Ok(()) else Err(UnableToConnectToWifiDevice);
  }

  /** `remove_wireless_network`: every failure of `remove_wifi` becomes `UnableToRemoveWifiDevice`. */
  method RemoveWirelessNetwork(d: Daemon, id: nat) returns (r: Result<(), WifiErrorCode>)
    modifies d
    ensures !d.reachable ==> r == Err(UnableToGetWifiDeviceStatus) && d.State() == old(d.State()) && d.log == old(d.log)
    ensures d.reachable ==>
              var o := Run(Opened(old(d.State())), [Remove(id), Shutdown], d.refused);
              d.log == old(d.log) + o.issued && d.State() == o.final &&
              r == if o.ok then Ok(()) else Err(UnableToRemoveWifiDevice)
  {
    var open := d.Open();
    if !open {
      return Err(UnableToGetWifiDeviceStatus);
    }
    var removed := RemoveWifi(d, id);
    r := if removed.Ok? then Ok(()) else Err(UnableToRemoveWifiDevice);
  }

  /**
   * A two-request session sends its closing `shutdown` only after the first
   * request succeeded, and succeeds iff neither request is refused.
   */
  lemma {:induction false} SessionOfTwo(st: DaemonState, first: Command, refused: set<Command>)
    requires !st.shutDown && first != Shutdown
    ensures var o := Run(st, [first, Shutdown], refused);
            (o.ok <==> first !in refused && Shutdown !in refused) &&
            (Shutdown in o.issued <==> first !in refused) &&
            o.issued[0] == first
  {
    var cmds := [first, Shutdown];
    RunStopsAtFirstRefusal(st, cmds, refused);
    assert cmds[..1] == [first] && cmds[..2] == cmds;
    if first !in refused {
      assert FirstRefused(cmds, refused) == if Shutdown in refused then Some(1) else None;
    } else {
      assert FirstRefused(cmds, refused) == Some(0);
    }
  }

  /** Removing a network takes exactly the entries with that id out of the list. */
  lemma RemoveTakesOutId(st: DaemonState, id: nat, refused: set<Command>)
    requires !st.shutDown && Remove(id) !in refused
    ensures var o := Run(st, [Remove(id), Shutdown], refused);
            forall n :: n in o.final.known <==> n in st.known && n.id != id
  {
    RunCons(st, Remove(id), [Shutdown], refused);
    RunCons(Effect(st, Remove(id)), Shutdown, [], refused);
  }
}
