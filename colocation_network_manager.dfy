/** The current generation's network manager (ColocationNetworkManager):
    it stops the session advertisement once the player cap is reached, and
    connects a client to a discovered address only after colocation has
    succeeded. */
module ColocationNet {
  import opened Basics
  import opened Net
  import Colocation

  class ColocationNetworkManager {
    const net: NetworkState
    /** ColocationManager.ColocationSuccessful. */
    const flag: ColocationFlag
    const colocationManager: Colocation.ColocationManager
    /** transport?.ServerUri()?.ToString(): None without a transport. */
    const transportUri: Option<string>

    constructor (net: NetworkState, flag: ColocationFlag, colocationManager: Colocation.ColocationManager,
                 transportUri: Option<string>)
      ensures this.net == net && this.flag == flag && this.colocationManager == colocationManager
      ensures this.transportUri == transportUri
    {
      this.net := net;
      this.flag := flag;
      this.colocationManager := colocationManager;
      this.transportUri := transportUri;
    }

    /** The URI to advertise; "" without a transport. */
    function GetLanServerUri(): (uri: string)
      ensures transportUri.Some? ==> uri == transportUri.value
      ensures transportUri.None? ==> uri == ""
    {
      match transportUri
      case None => ""
      case Some(u) => u
    }

    /** A player joins; advertising stops once the server is full. */
    method OnServerAddPlayer() returns (stopAdvertising: bool)
      modifies net`numPlayers, colocationManager`advertising
      ensures net.numPlayers == old(net.numPlayers) + 1
      ensures stopAdvertising <==> net.numPlayers >= net.maxConnections
      ensures stopAdvertising ==> !colocationManager.advertising
      ensures !stopAdvertising ==> colocationManager.advertising == old(colocationManager.advertising)
    {
      net.AddPlayer();
      stopAdvertising := net.numPlayers >= net.maxConnections;
      if stopAdvertising {
        colocationManager.StopColocationAdvertisement();
      }
    }

    /** Connect to `serverAddress` once aligned. A connected client ignores
        the request; a started but unconnected client (possibly aimed at a
        stale address) is stopped first. The connection coroutine then runs
        with `laterFlags`, the flag as it reads after each frame it yields. */
    method RequestLanConnection(serverAddress: string, laterFlags: seq<bool>)
      returns (started: bool, connected: bool, frames: nat)
      modifies net`clientActive, net`clientConnected, net`networkAddress
      ensures started <==> !old(net.clientConnected)
      ensures !started ==>
        !connected && net.clientActive == old(net.clientActive)
        && net.clientConnected && net.networkAddress == old(net.networkAddress)
      ensures started ==> var polls := [flag.successful] + laterFlags;
        frames <= |polls|
        && (connected ==> frames < |polls| && polls[frames])
        && (forall k :: 0 <= k < frames ==> !polls[k])
        && (connected ==> net.networkAddress == serverAddress && net.clientActive && !net.clientConnected)
        && (!connected ==> !net.clientActive && !net.clientConnected
                           && net.networkAddress == old(net.networkAddress))
    {
      started, connected, frames := false, false, 0;
      if net.clientConnected {
        return;
      }
      if net.clientActive {
        net.StopClient();
      }
      started := true;
      connected, frames := EnsureAlignmentBeforeConnecting(serverAddress, laterFlags);
    }

    /** Wait until the colocation flag is raised, then connect. */
    method EnsureAlignmentBeforeConnecting(serverAddress: string, laterFlags: seq<bool>)
      returns (connected: bool, frames: nat)
      modifies net`clientActive, net`networkAddress
      ensures var polls := [flag.successful] + laterFlags;
        (connected ==> frames < |polls| && polls[frames])
        && (!connected ==> frames == |polls|)
        && (forall k :: 0 <= k < frames ==> !polls[k])
      ensures connected ==> net.networkAddress == serverAddress && net.clientActive
      ensures !connected ==>
        net.networkAddress == old(net.networkAddress) && net.clientActive == old(net.clientActive)
    {
      frames, connected := WaitForFlag([flag.successful] + laterFlags);
      if connected {
        ProcessRequestLanConnection(serverAddress);
      }
    }

    method ProcessRequestLanConnection(serverAddress: string)
      modifies net`networkAddress, net`clientActive
      ensures net.networkAddress == serverAddress && net.clientActive
    {
      net.networkAddress := serverAddress;
      net.StartClient();
    }
  }
}
