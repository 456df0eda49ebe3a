/** The networking state the session code reads and drives: Mirror's
    server/client activity, the address the client connects to, the player
    count, and the process-wide colocation flag. Mirror itself is not part of
    this model; its start/stop calls are reduced to the flags they set. */
module Net {

  /** The static `ColocationManager.ColocationSuccessful`: raised once this
      device shares the host's coordinate frame, read before connecting and
      before LAN discovery, cleared by a full reset. Each generation of the
      session code has its own copy of the flag. */
  class ColocationFlag {
    var successful: bool

    constructor ()
      ensures !successful
    {
      successful := false;
    }

    /** ClearColocationFlag: the next session starts unaligned. */
    method Clear()
      modifies this
      ensures !successful
    {
      successful := false;
    }

    method Raise()
      modifies this
      ensures successful
    {
      successful := true;
    }
  }

  /** NetworkServer.active, NetworkClient.active (started, possibly still
      connecting), NetworkClient.isConnected, the manager's networkAddress,
      numPlayers and maxConnections. */
  class NetworkState {
    var serverActive: bool
    var clientActive: bool
    var clientConnected: bool
    var networkAddress: string
    var numPlayers: nat
    const maxConnections: nat

    /** A connected client is an active one. */
    predicate Valid()
      reads this
    {
      clientConnected ==> clientActive
    }

    constructor (maxConnections: nat)
      ensures Valid()
      ensures !serverActive && !clientActive && !clientConnected && numPlayers == 0
      ensures this.maxConnections == maxConnections
    {
      this.maxConnections := maxConnections;
      serverActive := false;
      clientActive := false;
      clientConnected := false;
      networkAddress := "localhost";
      numPlayers := 0;
    }

    /** StartClient: the client becomes active and starts connecting. */
    method StartClient()
      modifies this`clientActive
      ensures Valid() && clientActive
    {
      clientActive := true;
    }

    method StopClient()
      modifies this`clientActive, this`clientConnected
      ensures Valid() && !clientActive && !clientConnected
    {
      clientActive := false;
      clientConnected := false;
    }

    method StopServer()
      modifies this`serverActive
      ensures !serverActive
    {
      serverActive := false;
    }

    /** StopHost: stop the local client, then the server. */
    method StopHost()
      modifies this`serverActive, this`clientActive, this`clientConnected
      ensures Valid() && !serverActive && !clientActive && !clientConnected
    {
      StopClient();
      StopServer();
    }

    /** The player the base OnServerAddPlayer adds. */
    method AddPlayer()
      modifies this`numPlayers
      ensures numPlayers == old(numPlayers) + 1
    {
      numPlayers := numPlayers + 1;
    }
  }

  /** The wait of a connection coroutine: it checks the colocation flag
      when it starts (`polls[0]`) and again after each frame it yields
      (`polls[k]` after k frames), and goes on at the first check that finds
      the flag raised. `frames` is how many frames it yielded; when no check
      finds the flag it is still waiting after all of them. */
  method WaitForFlag(polls: seq<bool>) returns (frames: nat, raised: bool)
    ensures raised ==> frames < |polls| && polls[frames]
    ensures !raised ==> frames == |polls|
    ensures forall k :: 0 <= k < frames ==> !polls[k]
  {
    frames := 0;
    while frames < |polls| && !polls[frames]
      invariant frames <= |polls|
      invariant forall k :: 0 <= k < frames ==> !polls[k]
    {
      frames := frames + 1;
    }
    raised := frames < |polls|;
  }
}
