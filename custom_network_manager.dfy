/** The older generation's network manager (CustomNetworkManager): the
    server advertises itself for LAN discovery, the client starts colocation
    discovery, advertising stops once the server is full, and a client
    connects to a discovered address only after colocation has succeeded. */
module CustomNet {
  import opened Net
  import Lan
  import LegacyColocation

  class CustomNetworkManager {
    const net: NetworkState
    /** CustomNetwork's ColocationManager.ColocationSuccessful. */
    const flag: ColocationFlag
    const lanDiscovery: Lan.LANDiscovery
    const colocationManager: LegacyColocation.LegacyColocationManager

    constructor (net: NetworkState, flag: ColocationFlag, lanDiscovery: Lan.LANDiscovery,
                 colocationManager: LegacyColocation.LegacyColocationManager)
      ensures this.net == net && this.flag == flag
      ensures this.lanDiscovery == lanDiscovery && this.colocationManager == colocationManager
    {
      this.net := net;
      this.flag := flag;
      this.lanDiscovery := lanDiscovery;
      this.colocationManager := colocationManager;
    }

    /** A started server always advertises itself for LAN discovery. */
    method OnStartServer()
      modifies lanDiscovery`advertising
      ensures lanDiscovery.advertising
    {
      lanDiscovery.StartHostAdvertisement();
    }

    /** A started client always starts colocation discovery (`started` is
        the platform's answer to starting it). */
    method OnStartClient(started: bool)
      modifies colocationManager`subscribed, colocationManager`discovering, colocationManager`fallbackPending
      ensures colocationManager.subscribed
      ensures colocationManager.discovering == started && colocationManager.fallbackPending == started
    {
      colocationManager.OnStartClient(started);
    }

    /** A player joins; proximity advertising stops once the server is full. */
    method OnServerAddPlayer() returns (stopAdvertising: bool)
      modifies net`numPlayers, colocationManager`advertising
      ensures net.numPlayers == old(net.numPlayers) + 1
      ensures stopAdvertising <==> net.numPlayers >= net.maxConnections
      ensures stopAdvertising ==> !colocationManager.advertising
      ensures !stopAdvertising ==> colocationManager.advertising == old(colocationManager.advertising)
    {
      net.AddPlayer();
      stopAdvertising := net.numPlayers >= net.maxConnections;
      if stopAdvertising {
        colocationManager.StopColocationAdvertisement();
      }
    }

    /** Connect to `serverAddress` once aligned. Unlike the current
        generation, any active client (connected or still connecting) makes
        the request a no-op. `laterFlags` is the flag as it reads after each
        frame the connection coroutine yields. */
    method RequestLanConnection(serverAddress: string, laterFlags: seq<bool>)
      returns (started: bool, connected: bool, frames: nat)
      modifies net`clientActive, net`networkAddress
      ensures started <==> !old(net.clientActive)
      ensures !started ==>
        !connected && net.clientActive && net.networkAddress == old(net.networkAddress)
      ensures started ==> var polls := [flag.successful] + laterFlags;
        frames <= |polls|
        && (connected ==> frames < |polls| && polls[frames])
        && (forall k :: 0 <= k < frames ==> !polls[k])
        && (connected ==> net.networkAddress == serverAddress && net.clientActive)
        && (!connected ==> !net.clientActive && net.networkAddress == old(net.networkAddress))
    {
      started, connected, frames := false, false, 0;
      if net.clientActive {
        return;
      }
      started := true;
      connected, frames := EnsureAlignmentBeforeConnecting(serverAddress, laterFlags);
    }

    /** Wait until the colocation flag is raised, then connect. */
    method EnsureAlignmentBeforeConnecting(serverAddress: string, laterFlags: seq<bool>)
      returns (connected: bool, frames: nat)
      modifies net`clientActive, net`networkAddress
      ensures var polls := [flag.successful] + laterFlags;
        (connected ==> frames < |polls| && polls[frames])
        && (!connected ==> frames == |polls|)
        && (forall k :: 0 <= k < frames ==> !polls[k])
      ensures connected ==> net.networkAddress == serverAddress && net.clientActive
      ensures !connected ==>
        net.networkAddress == old(net.networkAddress) && net.clientActive == old(net.clientActive)
    {
      frames, connected := WaitForFlag([flag.successful] + laterFlags);
      if connected {
        ProcessRequestLanConnection(serverAddress);
      }
    }

    method ProcessRequestLanConnection(serverAddress: string)
      modifies net`networkAddress, net`clientActive
      ensures net.networkAddress == serverAddress && net.clientActive
    {
      net.networkAddress := serverAddress;
      net.StartClient();
    }
  }
}
